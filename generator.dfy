/** The random diagram generator of `src/generator.js`.

    The generator keeps its own arena of particles, each with two optional
    ends (`from` and `to`), and an arena of vertices. `Math.random` is an
    injected stream of reals read through a `RandomSource`; the table of
    vertex types is a parameter. */
module DiagramGenerator {
  import opened Wrappers
  import opened Sequences
  import Feynman

  type Kind = Feynman.Kind
  type PId = nat
  type VId = nat
  type TypeId = nat

  /** The three particle classes `randomParticleType` samples from. */
  const AllKinds: seq<Kind> := [Feynman.Electron, Feynman.Positron, Feynman.Photon]

  /** A particle of the generator: its class and the vertices it comes
      from and goes to, each unset until a vertex links that end. */
  datatype Particle = Particle(kind: Kind, from: Option<VId>, to: Option<VId>)

  /** One of the two ends of a particle. */
  datatype End = From | To

  predicate Missing(r: Particle, e: End)
  {
    if e == From then r.from.None? else r.to.None?
  }

  /** A vertex type: the particle classes of its input slots and of its
      output slots. */
  datatype VertexType = VertexType(inputTypes: seq<Kind>, outputTypes: seq<Kind>)

  /** The vertex types and, for each particle class, the types that can
      serve as its `from` vertex and as its `to` vertex. */
  datatype Table = Table(types: seq<VertexType>,
                         possibleFromVertices: Kind -> seq<TypeId>,
                         possibleToVertices: Kind -> seq<TypeId>)

  /** The candidate types of `e` for particle class `k`. */
  function Possible(t: Table, k: Kind, e: End): seq<TypeId>
  {
    if e == From then t.possibleFromVertices(k) else t.possibleToVertices(k)
  }

  /** The slot classes of the side of a vertex type that `e` links: a
      vertex is the `from` end of its outputs and the `to` end of its inputs. */
  function Slots(vt: VertexType, e: End): seq<Kind>
  {
    if e == From then vt.outputTypes else vt.inputTypes
  }

  /** Every listed type exists and has a slot of the particle's class on
      the side that links the wanted end. */
  ghost predicate Consistent(t: Table)
  {
    forall k: Kind, e: End, i ::
      0 <= i < |Possible(t, k, e)| ==>
        Possible(t, k, e)[i] < |t.types| && k in Slots(t.types[Possible(t, k, e)[i]], e)
  }

  /** The vertices of the generator's arena. */
  datatype Vertex =
    | Incoming(particle: PId)
    | Outgoing(particle: PId)
    | Inner(vertexType: TypeId, inputs: seq<PId>, outputs: seq<PId>)

  /** `new Diagram(inputs, outputs, virtuals, vertices)`. */
  datatype Diagram = Diagram(inputs: seq<PId>, outputs: seq<PId>, virtuals: seq<PId>, vertices: seq<VId>)

  /** Why `generate` gave no diagram: the throw at the fully linked
      particle, a class with no vertex type for the missing end (the hidden
      `sample` returns `null` and reading its slots throws), a second link
      of an end in the vertex constructor, or the bound on iterations. */
  datatype GenError =
    | FullyLinkedParticleChosen(particle: PId)
    | NoVertexType(particle: PId)
    | DoubleLink
    | OutOfFuel

  /** Whether a particle is where `generate` wants it between iterations,
      once `getsFrom` and `getsTo` say whether it still gets its `from` and its `to`
      end from the vertex under construction: one end missing while in
      `unlinked`, none missing otherwise. */
  predicate Settled(r: Particle, getsFrom: bool, getsTo: bool, isUnlinked: bool)
  {
    var f := r.from.Some? || getsFrom;
    var t := r.to.Some? || getsTo;
    if isUnlinked then f != t else f && t
  }

  /** `unlinkedParticles.filter(p => p.constructor === k && pred(p))` for the
      predicates `canChooseFrom` and `canChooseTo`: end `e` missing, not
      yet in `chosen`. */
  function Candidates(ps: seq<Particle>, us: seq<PId>, k: Kind, e: End, chosen: seq<PId>): (r: seq<PId>)
    requires AllBelow(us, |ps|)
    ensures AllBelow(r, |ps|)
    ensures forall p :: p in r <==> p in us && ps[p].kind == k && Missing(ps[p], e) && p !in chosen
  {
    if us == [] then []
    else
      var init := us[..|us| - 1];
      var p := us[|us| - 1];
      assert us == init + [p];
      Candidates(ps, init, k, e, chosen) + (if ps[p].kind == k && Missing(ps[p], e) && p !in chosen then [p] else [])
  }

  // ---------------------------------------------------------------------
  // `sample` and the other uses of `Math.random`
  // ---------------------------------------------------------------------

  /** `x * n`, written as `n` additions of `x` so that no product of two
      unknowns reaches the solver where `sample` is used; `ScaleProduct`
      shows it is the product. */
  function Scale(x: real, n: nat): real
  {
    if n == 0 then 0.0 else Scale(x, n - 1) + x
  }

  lemma {:induction false} ScaleProduct(x: real, n: nat)
    ensures Scale(x, n) == x * n as real
  {
    if n > 0 {
      ScaleProduct(x, n - 1);
      assert x * (n - 1) as real + x == x * n as real;
    }
  }

  /** `Math.floor(x * n)` with the two guards of `sample`: an index at or
      above `n` becomes the last one, one at or below zero the first. */
  function SampleIndex(n: nat, x: real): (i: nat)
    requires n >= 2
    ensures i < n
    ensures 0.0 <= x < 1.0 ==> i == Scale(x, n).Floor
  {
    var r := Scale(x, n).Floor;
    if 0.0 <= x < 1.0 then ScaledBelow(x, n); r
    else if r >= n then n - 1 else if r <= 0 then 0 else r
  }

  /** A value in [0, 1) scaled by a positive `n` stays in [0, n). */
  lemma ScaledBelow(x: real, n: nat)
    requires 0.0 <= x < 1.0 && n > 0
    ensures 0 <= Scale(x, n).Floor < n
  {
    ScaleProduct(x, n);
    var y := n as real;
    assert y - x * y == (1.0 - x) * y;
    assert 0.0 <= x * y < y;
  }

  /** `sample(s)` when `Math.random()` would return `x`; `x` is read only
      when `s` has two elements or more. */
  function Sample<T>(s: seq<T>, x: real): (r: Option<T>)
    ensures r.None? <==> |s| == 0
    ensures r.Some? ==> r.value in s
    ensures |s| == 1 ==> r == Some(s[0])
  {
    if |s| == 0 then None
    else if |s| == 1 then Some(s[0])
    else Some(s[SampleIndex(|s|, x)])
  }

  /** How many times `sample(s)` calls `Math.random`. */
  function SampleDraws<T>(s: seq<T>): nat
  {
    if |s| >= 2 then 1 else 0
  }

  /** When `sample(s)` does not call `Math.random`, the value it would
      have read makes no difference to what it returns. */
  lemma SampleUnread<T>(s: seq<T>, x: real, y: real)
    requires SampleDraws(s) == 0
    ensures Sample(s, x) == Sample(s, y)
  {
  }

  /** Every element of a non-empty array is drawn by some value in [0, 1):
      element `i` of `n` by `i / n`. */
  lemma SampleReaches<T>(s: seq<T>, i: nat)
    requires i < |s|
    ensures var x := i as real / |s| as real;
      0.0 <= x < 1.0 && Sample(s, x) == Some(s[i])
  {
    var x := i as real / |s| as real;
    UnitFraction(i, |s|);
    if |s| >= 2 {
      assert SampleIndex(|s|, x) == i;
    }
  }

  /** `i / n` for `i < n` lies in [0, 1) and scales back to `i`. */
  lemma UnitFraction(i: nat, n: nat)
    requires i < n
    ensures var x := i as real / n as real; 0.0 <= x < 1.0 && Scale(x, n).Floor == i
  {
    var x := i as real / n as real;
    ScaleProduct(x, n);
    assert x * n as real == i as real;
  }

  /** `Math.random() < (1 / n) * 0.4` where `n` is the number of virtual
      particles so far; with none, `1 / 0` is `Infinity` and it holds.
      For `n > 0` it is `x * n < 0.4` (`MintThreshold`). */
  predicate Mint(x: real, n: nat)
  {
    n == 0 || Scale(x, n) < 0.4
  }

  /** With virtual particles, the coin is the source's comparison
      `x < (1 / n) * 0.4`. */
  lemma MintThreshold(x: real, n: nat)
    requires n > 0
    ensures Mint(x, n) <==> x < (1.0 / n as real) * 0.4
  {
    ScaleProduct(x, n);
    var y := n as real;
    assert (1.0 / y) * 0.4 * y == 0.4;
    if x < (1.0 / y) * 0.4 {
      assert x * y < (1.0 / y) * 0.4 * y;
    } else {
      assert x * y >= (1.0 / y) * 0.4 * y;
    }
  }

  /** The stream behind `Math.random`: call `k` returns `values(k)`. */
  class RandomSource {
    const values: nat -> real
    var next: nat

    constructor (values: nat -> real)
      ensures this.values == values && next == 0
    {
      this.values := values;
      next := 0;
    }

    /** One call to `Math.random()`. */
    method Next() returns (x: real)
      modifies this`next
      ensures x == values(old(next)) && next == old(next) + 1
    {
      x := values(next);
      next := next + 1;
    }

    /** The draws of `randomParticleOfType`: `sample(s)`, then, when it
        found something, the coin against `n` virtual particles; `mint`
        says whether a fresh particle is to be made. */
    method SampleOrMint<T>(s: seq<T>, n: nat) returns (r: Option<T>, mint: bool)
      modifies this`next
      ensures r == Sample(s, values(old(next)))
      ensures mint <==> r.None? || Mint(values(old(next) + SampleDraws(s)), n)
      ensures next == old(next) + SampleDraws(s) + (if r.None? then 0 else 1)
    {
      r := SampleOf(s);
      mint := r.None?;
      if !mint {
        var x := Next();
        mint := Mint(x, n);
      }
    }

    /** `sample(s)`: reads the stream only when there is a choice to make. */
    method SampleOf<T>(s: seq<T>) returns (r: Option<T>)
      modifies this`next
      ensures r == Sample(s, values(old(next))) && next == old(next) + SampleDraws(s)
    {
      if |s| <= 1 {
        r := Sample(s, 0.0);
      } else {
        var x := Next();
        r := Sample(s, x);
      }
    }
  }

  /** The bookkeeping of a vertex under construction, on values: `us` is
      `unlinked`, and `outs` and `ins` are the particles waiting for their
      `from` and their `to` end from that vertex. Those ends are still
      unset, and once they are set every particle is `Settled`. */
  ghost predicate StagedOn(ps: seq<Particle>, us: seq<PId>, outs: seq<PId>, ins: seq<PId>)
  {
    AllBelow(us, |ps|) && NoDuplicates(us) && AllBelow(outs, |ps|) && AllBelow(ins, |ps|) &&
    (forall i :: 0 <= i < |outs| ==> ps[outs[i]].from.None?) &&
    (forall i :: 0 <= i < |ins| ==> ps[ins[i]].to.None?) &&
    forall p :: 0 <= p < |ps| ==> Settled(ps[p], p in outs, p in ins, p in us)
  }

  /** The pending list that end `e` extends with `p`. */
  function Pend(pending: seq<PId>, side: End, e: End, p: PId): seq<PId>
  {
    if side == e then pending + [p] else pending
  }

  /** Minting a particle for a slot keeps the bookkeeping: it enters
      `unlinked` and waits for the end `e` of its slot. */
  lemma MintStaged(ps: seq<Particle>, us: seq<PId>, outs: seq<PId>, ins: seq<PId>, k: Kind, e: End)
    requires StagedOn(ps, us, outs, ins)
    ensures var n := |ps|;
      StagedOn(ps + [Particle(k, None, None)], us + [n], Pend(outs, From, e, n), Pend(ins, To, e, n))
  {
    var n := |ps|;
    var ps' := ps + [Particle(k, None, None)];
    var us' := us + [n];
    var outs' := Pend(outs, From, e, n);
    var ins' := Pend(ins, To, e, n);
    assert n !in us;
    forall i, j | 0 <= i < j < |us'| ensures us'[i] != us'[j] {
      if j == |us| { assert us'[i] == us[i]; }
    }
    forall p | 0 <= p < |ps'| ensures Settled(ps'[p], p in outs', p in ins', p in us') {
      if p < n {
        assert ps'[p] == ps[p];
        assert p in outs' <==> p in outs;
        assert p in ins' <==> p in ins;
        assert p in us' <==> p in us;
      } else {
        assert p in us';
      }
    }
  }

  /** Reusing a particle of `unlinked` whose end `e` is missing keeps the
      bookkeeping: it leaves `unlinked` and waits for that end. */
  lemma ReuseStaged(ps: seq<Particle>, us: seq<PId>, outs: seq<PId>, ins: seq<PId>, p: PId, e: End)
    requires StagedOn(ps, us, outs, ins)
    requires p in us && p < |ps| && Missing(ps[p], e) && p !in outs && p !in ins
    ensures StagedOn(ps, Without(us, p), Pend(outs, From, e, p), Pend(ins, To, e, p))
  {
    var us' := Without(us, p);
    var outs' := Pend(outs, From, e, p);
    var ins' := Pend(ins, To, e, p);
    WithoutNoDuplicates(us, p);
    forall i | 0 <= i < |us'| ensures us'[i] < |ps| {
      assert us'[i] in us;
    }
    forall q | 0 <= q < |ps| ensures Settled(ps[q], q in outs', q in ins', q in us') {
      if q == p {
        assert Settled(ps[p], false, false, true);
        assert p !in us';
      } else {
        assert q in outs' <==> q in outs;
        assert q in ins' <==> q in ins;
        assert q in us' <==> q in us;
      }
    }
  }

  /** Taking `p` for a slot, minted or reused, keeps the bookkeeping. */
  lemma PickStaged(ps: seq<Particle>, us: seq<PId>, vs: seq<PId>, ps': seq<Particle>, us': seq<PId>, vs': seq<PId>,
                   outs: seq<PId>, ins: seq<PId>, chosen: seq<PId>, p: PId, k: Kind, e: End)
    requires StagedOn(ps, us, outs, ins) && AllBelow(vs, |ps|)
    requires (forall x :: x in outs || x in ins ==> x in chosen) && p !in chosen
    requires || (p == |ps| && ps' == ps + [Particle(k, None, None)] && us' == us + [p] && vs' == vs + [p])
             || (p < |ps| && ps' == ps && p in us && Missing(ps[p], e) && us' == Without(us, p) && vs' == vs)
    ensures StagedOn(ps', us', Pend(outs, From, e, p), Pend(ins, To, e, p)) && AllBelow(vs', |ps'|)
    ensures vs' == vs + Range(|ps|, |ps'|)
  {
    assert Range(|ps|, |ps'|) == if p == |ps| then [p] else [];
    if p == |ps| {
      MintStaged(ps, us, outs, ins, k, e);
    } else {
      ReuseStaged(ps, us, outs, ins, p, e);
    }
  }

  /** `randomParticleType()`: one draw among the three classes. */
  method RandomParticleType(rng: RandomSource) returns (k: Kind)
    modifies rng`next
    ensures Some(k) == Sample(AllKinds, rng.values(old(rng.next))) && rng.next == old(rng.next) + 1
  {
    var r := rng.SampleOf(AllKinds);
    k := r.value;
  }

  // ---------------------------------------------------------------------
  // Filling the slots of one side of a vertex
  // ---------------------------------------------------------------------

  /** While one side is filled, starting from the pending lists `outs0`
      and `ins0`: the bookkeeping holds with every particle placed so far
      pending on end `e`. */
  ghost predicate FillStaged(e: End, outs0: seq<PId>, ins0: seq<PId>, ps: seq<Particle>, us: seq<PId>,
                             vs: seq<PId>, filled: seq<PId>, outs: seq<PId>, ins: seq<PId>)
  {
    StagedOn(ps, us, outs, ins) && AllBelow(vs, |ps|) &&
    (forall x :: x in outs <==> x in outs0 || (e == From && x in filled)) &&
    (forall x :: x in ins <==> x in ins0 || (e == To && x in filled))
  }

  /** Slot `j` holds a particle of class `kinds[j]`, no particle fills two
      slots, and `chosen` is `chosen0` with the placed particles. */
  ghost predicate FillTyped(kinds: seq<Kind>, chosen0: seq<PId>, ps: seq<Particle>,
                            filled: seq<PId>, chosen: seq<PId>)
  {
    |filled| == |kinds| && AllBelow(filled, |ps|) && AllBelow(chosen, |ps|) &&
    (forall j :: 0 <= j < |filled| ==> ps[filled[j]].kind == kinds[j]) &&
    NoDuplicates(filled) &&
    (forall x :: x in chosen <==> x in chosen0 || x in filled)
  }

  /** Particle `q` of class `k` sits in exactly the first slot of class `k`,
      and in none if the side has no such slot. */
  ghost predicate FillPlaced(kinds: seq<Kind>, filled: seq<PId>, q: PId, k: Kind)
    requires |filled| == |kinds|
  {
    (q in filled <==> k in kinds) &&
    forall j :: 0 <= j < |filled| ==> (filled[j] == q <==> kinds[j] == k && k !in kinds[..j])
  }

  /** Every placed particle other than `place` is a new pick: not in
      `chosen0`, and either minted or taken from `unlinked` (`us0`) with its
      end `e` missing; particles only ever get appended, each new one
      becoming virtual. */
  ghost predicate FillFresh(e: End, place: Option<PId>, chosen0: seq<PId>, ps0: seq<Particle>, us0: seq<PId>,
                            vs0: seq<PId>, ps: seq<Particle>, vs: seq<PId>, filled: seq<PId>)
  {
    |ps| >= |ps0| && (forall q :: 0 <= q < |ps0| ==> ps[q] == ps0[q]) &&
    vs == vs0 + Range(|ps0|, |ps|) &&
    forall j :: 0 <= j < |filled| && Some(filled[j]) != place ==>
      filled[j] !in chosen0 &&
      (filled[j] >= |ps0| || (filled[j] in us0 && Missing(ps0[filled[j]], e)))
  }

  /** Putting `q` into the first slot of its class keeps the filling. */
  lemma {:induction false} PlaceStep(kinds: seq<Kind>, k: Kind, e: End, q: PId, chosen0: seq<PId>,
                                     outs0: seq<PId>, ins0: seq<PId>, ps0: seq<Particle>, us0: seq<PId>, vs0: seq<PId>,
                                     ps: seq<Particle>, us: seq<PId>, vs: seq<PId>,
                                     filled: seq<PId>, chosen: seq<PId>, outs: seq<PId>, ins: seq<PId>)
    requires q in chosen0 && q in (if e == From then outs0 else ins0) && q < |ps0|
    requires FillStaged(e, outs0, ins0, ps, us, vs, filled, outs, ins)
    requires FillTyped(kinds, chosen0, ps, filled, chosen)
    requires FillPlaced(kinds, filled, q, ps0[q].kind) && q !in filled && k == ps0[q].kind
    requires FillFresh(e, Some(q), chosen0, ps0, us0, vs0, ps, vs, filled)
    ensures FillStaged(e, outs0, ins0, ps, us, vs, filled + [q], outs, ins)
    ensures FillTyped(kinds + [k], chosen0, ps, filled + [q], chosen)
    ensures FillPlaced(kinds + [k], filled + [q], q, k)
    ensures FillFresh(e, Some(q), chosen0, ps0, us0, vs0, ps, vs, filled + [q])
  {
    ConcatNoDuplicates(filled, [q]);
    PlacedFirst(kinds, filled, q, k);
  }

  /** A slot of class `k` added before any other holds `q`. */
  lemma PlacedFirst(kinds: seq<Kind>, filled: seq<PId>, q: PId, k: Kind)
    requires |filled| == |kinds| && FillPlaced(kinds, filled, q, k) && q !in filled
    ensures FillPlaced(kinds + [k], filled + [q], q, k)
  {
    var filled', kinds' := filled + [q], kinds + [k];
    assert k !in kinds;
    forall j | 0 <= j < |filled'|
      ensures filled'[j] == q <==> kinds'[j] == k && k !in kinds'[..j]
    {
      if j < |filled| {
        assert kinds'[..j] == kinds[..j];
      } else {
        assert kinds'[..j] == kinds;
      }
    }
  }

  /** A slot added with some other particle `x` leaves `q` in the first
      slot of class `kq`, provided `q` is placed already or the new slot
      has another class. */
  lemma PlacedSnoc(kinds: seq<Kind>, filled: seq<PId>, q: PId, kq: Kind, k: Kind, x: PId)
    requires |filled| == |kinds| && FillPlaced(kinds, filled, q, kq)
    requires x != q && (q in filled || k != kq)
    ensures FillPlaced(kinds + [k], filled + [x], q, kq)
  {
    var filled', kinds' := filled + [x], kinds + [k];
    forall j | 0 <= j < |filled'|
      ensures filled'[j] == q <==> kinds'[j] == kq && kq !in kinds'[..j]
    {
      if j < |filled| {
        assert kinds'[..j] == kinds[..j];
      } else {
        assert kinds'[..j] == kinds;
      }
    }
  }

  /** Putting a new pick `p` of class `k` into the next slot keeps the
      filling; `ps1`, `us1`, `vs1` are the state before the pick. */
  lemma {:induction false} PickStep(kinds: seq<Kind>, k: Kind, e: End, place: Option<PId>, p: PId, chosen0: seq<PId>,
                                    outs0: seq<PId>, ins0: seq<PId>, ps0: seq<Particle>, us0: seq<PId>, vs0: seq<PId>,
                                    ps1: seq<Particle>, us1: seq<PId>, vs1: seq<PId>,
                                    ps: seq<Particle>, us: seq<PId>, vs: seq<PId>,
                                    filled: seq<PId>, chosen: seq<PId>, outs: seq<PId>, ins: seq<PId>)
    requires StagedOn(ps0, us0, outs0, ins0)
    requires forall x :: x in outs0 || x in ins0 ==> x in chosen0
    requires place.Some? ==> place.value in chosen0 && place.value < |ps0|
    requires FillStaged(e, outs0, ins0, ps1, us1, vs1, filled, outs, ins)
    requires FillTyped(kinds, chosen0, ps1, filled, chosen)
    requires place.Some? ==> FillPlaced(kinds, filled, place.value, ps0[place.value].kind)
    requires place.Some? ==> place.value in filled || k != ps0[place.value].kind
    requires FillFresh(e, place, chosen0, ps0, us0, vs0, ps1, vs1, filled)
    // what picking `p` promises
    requires StagedOn(ps, us, Pend(outs, From, e, p), Pend(ins, To, e, p)) && AllBelow(vs, |ps|)
    requires p < |ps| && p !in chosen && ps[p].kind == k
    requires p >= |ps1| || (p in us1 && Missing(ps1[p], e))
    requires |ps| >= |ps1| && (forall q :: 0 <= q < |ps1| ==> ps[q] == ps1[q])
    requires vs == vs1 + Range(|ps1|, |ps|)
    ensures FillStaged(e, outs0, ins0, ps, us, vs, filled + [p], Pend(outs, From, e, p), Pend(ins, To, e, p))
    ensures FillTyped(kinds + [k], chosen0, ps, filled + [p], chosen + [p])
    ensures place.Some? ==> FillPlaced(kinds + [k], filled + [p], place.value, ps0[place.value].kind)
    ensures FillFresh(e, place, chosen0, ps0, us0, vs0, ps, vs, filled + [p])
  {
    ConcatNoDuplicates(filled, [p]);
    assert forall j :: 0 <= j < |filled| ==> ps[filled[j]] == ps1[filled[j]];
    RangeConcat(|ps0|, |ps1|, |ps|);
    assert vs == vs0 + Range(|ps0|, |ps|);
    if p < |ps0| {
      assert ps1[p] == ps0[p];
      assert p !in outs0 && p !in ins0;
      assert Settled(ps0[p], false, false, p in us0);
    }
    if place.Some? {
      assert place.value in chosen;
      PlacedSnoc(kinds, filled, place.value, ps0[place.value].kind, k, p);
    }
  }

  /** The particles minted since the arena had `n0` have no end set yet and
      each fills a slot of `filled` or `filled2`. */
  ghost predicate Minted(n0: nat, ps: seq<Particle>, filled: seq<PId>, filled2: seq<PId>)
  {
    forall x :: n0 <= x < |ps| ==> (x in filled || x in filled2) && ps[x].from.None? && ps[x].to.None?
  }

  /** `unlinked` (`us`) holds the particles of `us0` not yet placed, then
      every particle minted since the arena had `n0`; those have no end
      set and each fills a slot. */
  ghost predicate FillTracked(n0: nat, us0: seq<PId>, ps: seq<Particle>, us: seq<PId>, filled: seq<PId>)
  {
    n0 <= |ps| && us == Outside(us0, filled) + Range(n0, |ps|) && Minted(n0, ps, filled, [])
  }

  /** Placing the chosen particle keeps `FillTracked`. */
  lemma PlaceTracked(n0: nat, us0: seq<PId>, ps: seq<Particle>, us: seq<PId>, filled: seq<PId>, q: PId)
    requires FillTracked(n0, us0, ps, us, filled) && q !in us0
    ensures FillTracked(n0, us0, ps, us, filled + [q])
  {
    PlaceUnlinked(us0, filled, n0, |ps|, us, q);
  }

  /** Picking `p` (minted, or reused from `unlinked`) keeps `FillTracked`. */
  lemma PickTracked(n0: nat, us0: seq<PId>, ps1: seq<Particle>, us1: seq<PId>, ps: seq<Particle>, us: seq<PId>,
                    filled: seq<PId>, p: PId)
    requires FillTracked(n0, us0, ps1, us1, filled) && AllBelow(us0, n0) && p !in filled
    requires |ps| >= |ps1| && forall q :: 0 <= q < |ps1| ==> ps[q] == ps1[q]
    requires p == |ps1| ==> |ps| == p + 1 && ps[p] == Particle(ps[p].kind, None, None) && us == us1 + [p]
    requires p != |ps1| ==> |ps| == |ps1| && p < |ps| && us == Without(us1, p)
    ensures FillTracked(n0, us0, ps, us, filled + [p])
  {
    PickUnlinked(us0, filled, n0, |ps1|, us1, p, |ps|, us);
    PickMinted(n0, ps1, ps, filled, p);
  }

  /** Placing the chosen particle, which is not in `unlinked` (`us0`),
      leaves `unlinked` as it was. */
  lemma PlaceUnlinked(us0: seq<PId>, filled: seq<PId>, n0: nat, n: nat, us: seq<PId>, q: PId)
    requires n0 <= n && us == Outside(us0, filled) + Range(n0, n) && q !in us0
    ensures us == Outside(us0, filled + [q]) + Range(n0, n)
  {
    OutsideSnoc(us0, filled, q);
  }

  /** A pick leaves `unlinked` as the particles of `us0` not yet placed,
      followed by those minted since: a reused pick leaves it, a minted one
      joins it at the end. */
  lemma PickUnlinked(us0: seq<PId>, filled: seq<PId>, n0: nat, n1: nat, us1: seq<PId>, p: PId, n: nat, us: seq<PId>)
    requires n0 <= n1 && AllBelow(us0, n0)
    requires us1 == Outside(us0, filled) + Range(n0, n1)
    requires (forall x :: n0 <= x < n1 ==> x in filled) && p !in filled
    requires || (p == n1 && n == n1 + 1 && us == us1 + [p])
             || (p < n1 && n == n1 && us == Without(us1, p))
    ensures us == Outside(us0, filled + [p]) + Range(n0, n)
  {
    OutsideSnoc(us0, filled, p);
    var kept := Outside(us0, filled);
    var minted := Range(n0, n1);
    if p == n1 {
      assert p !in us0;
      assert Outside(us0, filled + [p]) == kept;
      assert Range(n0, n) == minted + [p];
      ConcatAssoc(kept, minted, [p]);
    } else {
      calc {
        us;
      == { WithoutConcat(kept, minted, p); }
        Without(kept, p) + Without(minted, p);
      == { assert p !in minted; }
        Without(kept, p) + minted;
      }
    }
  }

  /** A pick keeps `Minted`: a minted pick has no end set and fills the
      new slot. */
  lemma PickMinted(n0: nat, ps1: seq<Particle>, ps: seq<Particle>, filled: seq<PId>, p: PId)
    requires n0 <= |ps1| && Minted(n0, ps1, filled, [])
    requires |ps| >= |ps1| && forall q :: 0 <= q < |ps1| ==> ps[q] == ps1[q]
    requires |ps| == |ps1| || (p == |ps1| && |ps| == p + 1 && ps[p].from.None? && ps[p].to.None?)
    ensures Minted(n0, ps, filled + [p], [])
  {
  }

  /** Particles taken only from `outs` are kept whole by `Outside(_, ins)`. */
  lemma OutsideOtherSide(xs: seq<PId>, ins: seq<PId>, outs: seq<PId>)
    requires NoDuplicates(ins + outs) && forall x :: x in xs ==> x in outs
    ensures Outside(xs, ins) == xs
  {
    forall x | x in xs ensures x !in ins {
      OnOneSide(ins, outs, x);
    }
    OutsideDisjoint(xs, ins);
  }

  /** After the outputs and then the inputs are filled, `unlinked` holds the
      particles of `us0` on neither side, then every particle minted since. */
  lemma FilledUnlinked(us0: seq<PId>, outs: seq<PId>, ins: seq<PId>, n0: nat, n1: nat, n: nat,
                       us1: seq<PId>, us: seq<PId>)
    requires n0 <= n1 <= n && NoDuplicates(ins + outs)
    requires us1 == Outside(us0, outs) + Range(n0, n1) && us == Outside(us1, ins) + Range(n1, n)
    requires forall x :: n0 <= x < n1 ==> x in outs
    ensures us == Outside(us0, ins + outs) + Range(n0, n)
  {
    FilledBothSides(us0, outs, ins, Range(n0, n1), Range(n1, n), us1, us);
    RangeConcat(n0, n1, n);
  }

  /** `FilledUnlinked` for any `minted` and `later` particles. */
  lemma FilledBothSides(us0: seq<PId>, outs: seq<PId>, ins: seq<PId>, minted: seq<PId>, later: seq<PId>,
                        us1: seq<PId>, us: seq<PId>)
    requires NoDuplicates(ins + outs) && forall x :: x in minted ==> x in outs
    requires us1 == Outside(us0, outs) + minted && us == Outside(us1, ins) + later
    ensures us == Outside(us0, ins + outs) + (minted + later)
  {
    calc {
      us;
    == { OutsideConcat(Outside(us0, outs), minted, ins); }
      (Outside(Outside(us0, outs), ins) + Outside(minted, ins)) + later;
    == { OutsideTwice(us0, outs, ins); OutsideOtherSide(minted, ins, outs); }
      (Outside(us0, ins + outs) + minted) + later;
    }
  }

  // ---------------------------------------------------------------------
  // Linking a vertex
  // ---------------------------------------------------------------------

  /** `new VertexType(...inputs, ...outputs)` can link every end: the
      inputs get their `to` end and the outputs their `from` end, so none
      of those may be set already, and no particle may fill two slots on
      the same side (it would link the same end twice). */
  predicate Linkable(ps: seq<Particle>, ins: seq<PId>, outs: seq<PId>)
  {
    AllBelow(ins, |ps|) && AllBelow(outs, |ps|) && NoDuplicates(ins) && NoDuplicates(outs) &&
    (forall j :: 0 <= j < |ins| ==> ps[ins[j]].to.None?) &&
    (forall j :: 0 <= j < |outs| ==> ps[outs[j]].from.None?)
  }

  /** The particles once vertex `v` is their `to` end (inputs) and their
      `from` end (outputs). */
  function LinkEnds(ps: seq<Particle>, ins: seq<PId>, outs: seq<PId>, v: VId): (r: seq<Particle>)
    ensures |r| == |ps|
  {
    seq(|ps|, p requires 0 <= p < |ps| =>
      Particle(ps[p].kind, if p in outs then Some(v) else ps[p].from, if p in ins then Some(v) else ps[p].to))
  }

  /** Linking the particles the vertex was staged with settles them: with
      exactly the outputs waiting for their `from` end and the inputs and
      `rest` for their `to` end, only `rest` still waits afterwards. */
  lemma LinkStaged(ps: seq<Particle>, us: seq<PId>, inputs: seq<PId>, outputs: seq<PId>, rest: seq<PId>, v: VId)
    requires StagedOn(ps, us, outputs, inputs + rest)
    requires forall x :: x in rest ==> x !in inputs
    ensures StagedOn(LinkEnds(ps, inputs, outputs, v), us, [], rest)
  {
    var ps' := LinkEnds(ps, inputs, outputs, v);
    forall p | 0 <= p < |ps'| ensures Settled(ps'[p], p in [], p in rest, p in us) {
      assert Settled(ps[p], p in outputs, p in inputs + rest, p in us);
    }
    forall j | 0 <= j < |rest| ensures rest[j] < |ps'| && ps'[rest[j]].to.None? {
      assert (inputs + rest)[|inputs| + j] == rest[j];
    }
  }

  /** Linking keeps the slots of an assembled vertex and makes it the `to`
      end of its inputs and the `from` end of its outputs. */
  lemma AssembledLinked(ps0: seq<Particle>, us0: seq<PId>, ps: seq<Particle>, vt: VertexType,
                        particle: PId, e: End, ins: seq<PId>, outs: seq<PId>, v: VId)
    requires particle < |ps0| && Assembled(ps0, us0, ps, vt, particle, e, ins, outs)
    ensures Assembled(ps0, us0, LinkEnds(ps, ins, outs, v), vt, particle, e, ins, outs)
    ensures LinkedTo(LinkEnds(ps, ins, outs, v), v, ins, outs)
  {
    var ps' := LinkEnds(ps, ins, outs, v);
    forall j | 0 <= j < |ins| ensures ps'[ins[j]].kind == ps[ins[j]].kind && ps'[ins[j]].to == Some(v) {
      assert ins[j] in ins;
    }
    forall j | 0 <= j < |outs| ensures ps'[outs[j]].kind == ps[outs[j]].kind && ps'[outs[j]].from == Some(v) {
      assert outs[j] in outs;
    }
  }

  /** The end `generateVertex` links for a particle that is not fully
      linked: `from` when it is missing, `to` otherwise. */
  function MissingEnd(r: Particle): (e: End)
    ensures r.from.None? || r.to.None? ==> Missing(r, e)
    ensures e == To ==> r.from.Some?
  {
    if r.from.None? then From else To
  }

  /** The state `generateVertex` works in: `particle` has been taken out of
      `us` and every other particle is where `generate` keeps it. */
  ghost predicate AwaitingOn(ps: seq<Particle>, us: seq<PId>, particle: PId)
  {
    particle < |ps| && particle !in us && AllBelow(us, |ps|) && NoDuplicates(us) &&
    forall q :: 0 <= q < |ps| && q != particle ==> Settled(ps[q], false, false, q in us)
  }

  /** The ends `particle` misses, as pending lists. */
  function PendingOf(r: Particle, particle: PId, e: End): seq<PId>
  {
    if Missing(r, e) then [particle] else []
  }

  /** A particle that misses an end, taken out of `unlinked`, waits for
      every end it misses. */
  lemma AwaitingStaged(ps: seq<Particle>, us: seq<PId>, particle: PId)
    requires AwaitingOn(ps, us, particle)
    requires ps[particle].from.None? || ps[particle].to.None?
    ensures StagedOn(ps, us, PendingOf(ps[particle], particle, From), PendingOf(ps[particle], particle, To))
  {
    var outs, ins := PendingOf(ps[particle], particle, From), PendingOf(ps[particle], particle, To);
    forall q | 0 <= q < |ps| ensures Settled(ps[q], q in outs, q in ins, q in us) {
      if q != particle {
        assert q !in outs && q !in ins;
      }
    }
  }

  /** The slots of a vertex of type `vt` built for `particle` on its end
      `e`: every slot holds a particle of the slot's class, no particle
      holds two slots, `particle` holds exactly the first slot of its class
      on the side that links `e` (outputs for `from`, inputs for `to`), and
      every other particle was minted or taken from `unlinked` (`us0`)
      missing the end its slot links. */
  ghost predicate Assembled(ps0: seq<Particle>, us0: seq<PId>, ps: seq<Particle>, vt: VertexType,
                            particle: PId, e: End, ins: seq<PId>, outs: seq<PId>)
    requires particle < |ps0|
  {
    |ins| == |vt.inputTypes| && |outs| == |vt.outputTypes| &&
    AllBelow(ins, |ps|) && AllBelow(outs, |ps|) &&
    (forall j :: 0 <= j < |ins| ==> ps[ins[j]].kind == vt.inputTypes[j]) &&
    (forall j :: 0 <= j < |outs| ==> ps[outs[j]].kind == vt.outputTypes[j]) &&
    NoDuplicates(ins + outs) &&
    (var side := if e == From then outs else ins;
     particle in side && FillPlaced(Slots(vt, e), side, particle, ps0[particle].kind)) &&
    (forall j :: 0 <= j < |outs| && outs[j] != particle ==>
      outs[j] >= |ps0| || (outs[j] in us0 && ps0[outs[j]].from.None?)) &&
    (forall j :: 0 <= j < |ins| && ins[j] != particle ==>
      ins[j] >= |ps0| || (ins[j] in us0 && ps0[ins[j]].to.None?))
  }

  /** Vertex `v`, appended to the vertices `vs0` to give `vs`, is an inner
      vertex assembled for `particle` on its end `e` and linked. */
  ghost predicate Built(ps0: seq<Particle>, us0: seq<PId>, ps: seq<Particle>, vs0: seq<Vertex>, vs: seq<Vertex>,
                        v: VId, table: Table, particle: PId, e: End)
    requires particle < |ps0|
  {
    v == |vs0| && |vs| == v + 1 && vs[..v] == vs0 && vs[v].Inner? && vs[v].vertexType < |table.types| &&
    Assembled(ps0, us0, ps, table.types[vs[v].vertexType], particle, e, vs[v].inputs, vs[v].outputs) &&
    LinkedTo(ps, v, vs[v].inputs, vs[v].outputs)
  }

  /** A particle in the outputs of a vertex whose slots are pairwise
      distinct is not among its inputs. */
  lemma OnOneSide(ins: seq<PId>, outs: seq<PId>, x: PId)
    requires x in outs && NoDuplicates(ins + outs)
    ensures x !in ins
  {
    var j :| 0 <= j < |outs| && outs[j] == x;
    forall i | 0 <= i < |ins| ensures ins[i] != x {
      assert (ins + outs)[i] == ins[i] && (ins + outs)[|ins| + j] == x;
    }
  }

  /** `ps` only adds particles to `ps0` and sets ends: every particle of
      `ps0` keeps its class and every end it had. */
  ghost predicate Extends(ps0: seq<Particle>, ps: seq<Particle>)
  {
    |ps| >= |ps0| &&
    forall q :: 0 <= q < |ps0| ==>
      ps[q].kind == ps0[q].kind &&
      (ps0[q].from.Some? ==> ps[q].from == ps0[q].from) &&
      (ps0[q].to.Some? ==> ps[q].to == ps0[q].to)
  }

  /** The whole particle arena after vertex `v` is linked, against `ps0`
      before the vertex was generated: the inputs get `v` as their `to` end,
      the outputs as their `from` end, every other end and every class of
      `ps0` stays as it was, and each particle added since is a slot of the
      vertex with no other end set. */
  ghost predicate Relinked(ps0: seq<Particle>, ps: seq<Particle>, v: VId, ins: seq<PId>, outs: seq<PId>)
  {
    |ps| >= |ps0| &&
    forall q :: 0 <= q < |ps| ==>
      ps[q].from == (if q in outs then Some(v) else if q < |ps0| then ps0[q].from else None) &&
      ps[q].to == (if q in ins then Some(v) else if q < |ps0| then ps0[q].to else None) &&
      (q < |ps0| ==> ps[q].kind == ps0[q].kind) &&
      (q >= |ps0| ==> q in ins || q in outs)
  }

  /** Under `Relinked`, a particle that is no slot of the vertex is exactly
      as it was. */
  lemma RelinkedFrame(ps0: seq<Particle>, ps: seq<Particle>, v: VId, ins: seq<PId>, outs: seq<PId>, q: PId)
    requires Relinked(ps0, ps, v, ins, outs) && q < |ps0| && q !in ins && q !in outs
    ensures ps[q] == ps0[q]
  {
  }

  /** Linking the slots of a vertex into an arena that kept `ps0` and only
      added slot particles with no end set gives `Relinked`. */
  lemma LinkRelinked(ps0: seq<Particle>, ps: seq<Particle>, ins: seq<PId>, outs: seq<PId>, v: VId)
    requires |ps| >= |ps0| && (forall q :: 0 <= q < |ps0| ==> ps[q] == ps0[q])
    requires Minted(|ps0|, ps, ins, outs)
    ensures Relinked(ps0, LinkEnds(ps, ins, outs, v), v, ins, outs)
  {
  }

  /** The two fills of `generateVertex` leave in `unlinked` the particles
      of `us0` in no slot of the vertex, then every particle minted for it;
      the arena before linking keeps `ps0` and adds only those particles. */
  lemma FilledTracked(ps0: seq<Particle>, us0: seq<PId>, ps1: seq<Particle>, us1: seq<PId>,
                      ps: seq<Particle>, us: seq<PId>, ins: seq<PId>, outs: seq<PId>)
    requires FillTracked(|ps0|, us0, ps1, us1, outs) && FillTracked(|ps1|, us1, ps, us, ins)
    requires NoDuplicates(ins + outs)
    requires forall q :: 0 <= q < |ps1| ==> ps[q] == ps1[q]
    ensures us == Outside(us0, ins + outs) + Range(|ps0|, |ps|)
    ensures Minted(|ps0|, ps, ins, outs)
  {
    FilledUnlinked(us0, outs, ins, |ps0|, |ps1|, |ps|, us1, us);
  }

  /** Linking a vertex never overwrites an end: it sets only ends that
      were unset. */
  lemma LinkExtends(ps: seq<Particle>, ins: seq<PId>, outs: seq<PId>, v: VId)
    requires Linkable(ps, ins, outs)
    ensures Extends(ps, LinkEnds(ps, ins, outs, v))
  {
    var ps' := LinkEnds(ps, ins, outs, v);
    forall q | 0 <= q < |ps|
      ensures ps'[q].kind == ps[q].kind
      ensures ps[q].from.Some? ==> ps'[q].from == ps[q].from
      ensures ps[q].to.Some? ==> ps'[q].to == ps[q].to
    {
      if q in outs {
        var j :| 0 <= j < |outs| && outs[j] == q;
      }
      if q in ins {
        var j :| 0 <= j < |ins| && ins[j] == q;
      }
    }
  }

  /** An assembled vertex of type `t`, staged with its outputs waiting
      for their `from` end and its inputs for their `to` end, is built and
      settles its particles once it is constructed as vertex `|vst0|`. */
  lemma ReadyToLink(ps0: seq<Particle>, us0: seq<PId>, ps: seq<Particle>, us: seq<PId>, vst0: seq<Vertex>,
                    table: Table, t: TypeId, particle: PId, e: End, ins: seq<PId>, outs: seq<PId>)
    requires particle < |ps0| && t < |table.types|
    requires Assembled(ps0, us0, ps, table.types[t], particle, e, ins, outs)
    requires StagedOn(ps, us, outs, ins + (if e == From then PendingOf(ps0[particle], particle, To) else []))
    requires Linkable(ps, ins, outs)
    requires |ps| >= |ps0| && forall q :: 0 <= q < |ps0| ==> ps[q] == ps0[q]
    ensures var linked := LinkEnds(ps, ins, outs, |vst0|);
      Built(ps0, us0, linked, vst0, vst0 + [Inner(t, ins, outs)], |vst0|, table, particle, e) &&
      StagedOn(linked, us, [], if e == From then PendingOf(ps0[particle], particle, To) else []) &&
      Extends(ps0, linked)
  {
    LinkExtends(ps, ins, outs, |vst0|);
    var rest := if e == From then PendingOf(ps0[particle], particle, To) else [];
    if e == From {
      OnOneSide(ins, outs, particle);
    }
    LinkStaged(ps, us, ins, outs, rest, |vst0|);
    BuiltLinked(ps0, us0, ps, vst0, table, t, particle, e, ins, outs);
  }

  /** Constructing an assembled vertex of type `t` builds it. */
  lemma BuiltLinked(ps0: seq<Particle>, us0: seq<PId>, ps: seq<Particle>, vs0: seq<Vertex>, table: Table, t: TypeId,
                    particle: PId, e: End, ins: seq<PId>, outs: seq<PId>)
    requires particle < |ps0| && t < |table.types|
    requires Assembled(ps0, us0, ps, table.types[t], particle, e, ins, outs)
    ensures Built(ps0, us0, LinkEnds(ps, ins, outs, |vs0|), vs0, vs0 + [Inner(t, ins, outs)], |vs0|, table, particle, e)
  {
    AssembledLinked(ps0, us0, ps, table.types[t], particle, e, ins, outs, |vs0|);
  }

  /** Vertex `v` is the `to` end of its inputs and the `from` end of its
      outputs. */
  ghost predicate LinkedTo(ps: seq<Particle>, v: VId, ins: seq<PId>, outs: seq<PId>)
  {
    AllBelow(ins, |ps|) && AllBelow(outs, |ps|) &&
    (forall j :: 0 <= j < |ins| ==> ps[ins[j]].to == Some(v)) &&
    (forall j :: 0 <= j < |outs| ==> ps[outs[j]].from == Some(v))
  }

  /** The outputs, filled first, and the inputs, filled from what the
      outputs left in `chosen`, share no particle. */
  lemma SidesDistinct(ps1: seq<Particle>, ps: seq<Particle>, vt: VertexType, particle: PId, e: End,
                      place1: Option<PId>, place2: Option<PId>, ps0: seq<Particle>, us0: seq<PId>, vs0: seq<PId>,
                      us1: seq<PId>, vs1: seq<PId>, vs: seq<PId>,
                      outs: seq<PId>, chosen1: seq<PId>, ins: seq<PId>, chosen2: seq<PId>)
    requires place1 == (if e == From then Some(particle) else None)
    requires place2 == (if e == To then Some(particle) else None)
    requires FillTyped(vt.outputTypes, [particle], ps1, outs, chosen1)
    requires FillFresh(From, place1, [particle], ps0, us0, vs0, ps1, vs1, outs)
    requires FillTyped(vt.inputTypes, chosen1, ps, ins, chosen2)
    requires FillFresh(To, place2, chosen1, ps1, us1, vs1, ps, vs, ins)
    ensures AllBelow(outs, |ps|) && forall j :: 0 <= j < |outs| ==> ps[outs[j]].kind == vt.outputTypes[j]
    ensures NoDuplicates(ins + outs)
  {
    forall j | 0 <= j < |outs| ensures outs[j] < |ps| && ps[outs[j]] == ps1[outs[j]] {
    }
    forall i, j | 0 <= i < |ins| && 0 <= j < |outs| ensures ins[i] != outs[j] {
      assert outs[j] in chosen1;
      if e == To && ins[i] == particle {
        assert outs[j] !in [particle];
      }
    }
    ConcatNoDuplicates(ins, outs);
  }

  /** Every slot of the inputs but the particle's own holds a particle that
      was minted or taken from `unlinked` missing its `to` end, judged on
      the state `ps0`, `us0` before the outputs were filled. */
  lemma InputsFresh(ps0: seq<Particle>, us0: seq<PId>, vs0: seq<PId>, ps1: seq<Particle>, us1: seq<PId>, vs1: seq<PId>,
                    ps: seq<Particle>, vs: seq<PId>, particle: PId, place2: Option<PId>,
                    chosen1: seq<PId>, ins: seq<PId>)
    requires AwaitingOn(ps0, us0, particle) && particle in chosen1
    requires place2 == None || place2 == Some(particle)
    requires |ps1| >= |ps0| && forall q :: 0 <= q < |ps0| ==> ps1[q] == ps0[q]
    requires FillFresh(To, place2, chosen1, ps1, us1, vs1, ps, vs, ins)
    ensures forall j :: 0 <= j < |ins| && ins[j] != particle ==>
      ins[j] >= |ps0| || (ins[j] in us0 && ps0[ins[j]].to.None?)
  {
    forall j | 0 <= j < |ins| && ins[j] != particle
      ensures ins[j] >= |ps0| || (ins[j] in us0 && ps0[ins[j]].to.None?)
    {
      var x := ins[j];
      if x < |ps0| {
        assert ps1[x] == ps0[x];
        assert Settled(ps0[x], false, false, x in us0);
      }
    }
  }

  /** After both fillings, the particles waiting for their `from` end are
      exactly the outputs, and those waiting for their `to` end the inputs
      and, when `particle` missed both ends, `particle` itself. */
  lemma PendingAfter(r: Particle, particle: PId, e: End, vt: VertexType,
                     outs: seq<PId>, o1: seq<PId>, i1: seq<PId>, ins: seq<PId>, o2: seq<PId>, i2: seq<PId>)
    requires Missing(r, e) && e == MissingEnd(r)
    requires e == From ==> particle in outs
    requires e == To ==> particle in ins
    requires forall x :: x in o1 <==> x in PendingOf(r, particle, From) || x in outs
    requires forall x :: x in i1 <==> x in PendingOf(r, particle, To)
    requires forall x :: x in o2 <==> x in o1
    requires forall x :: x in i2 <==> x in i1 || x in ins
    ensures forall x :: x in o2 <==> x in outs
    ensures forall x :: x in i2 <==> x in ins || (e == From && x in PendingOf(r, particle, To))
  {
  }

  /** Appending the virtuals of two fillings in turn appends those of both. */
  lemma VirtualsAppend(vs0: seq<PId>, vs1: seq<PId>, vs: seq<PId>, n0: nat, n1: nat, n: nat)
    requires n0 <= n1 <= n
    requires vs1 == vs0 + Range(n0, n1) && vs == vs1 + Range(n1, n)
    ensures vs == vs0 + Range(n0, n)
  {
    RangeConcat(n0, n1, n);
  }

  /** Filling the outputs and then the inputs of type `vt` for `particle`
      assembles the vertex and leaves it ready to link: `ps0`..`vs0` is the
      state before, `ps1`..`vs1` between and `ps`..`vs` after the two
      fillings of `generateVertex`. */
  lemma Assemble(ps0: seq<Particle>, us0: seq<PId>, vs0: seq<PId>, ps1: seq<Particle>, us1: seq<PId>, vs1: seq<PId>,
                 ps: seq<Particle>, us: seq<PId>, vs: seq<PId>, vt: VertexType, particle: PId, e: End,
                 outs: seq<PId>, chosen1: seq<PId>, o1: seq<PId>, i1: seq<PId>,
                 ins: seq<PId>, chosen2: seq<PId>, o2: seq<PId>, i2: seq<PId>)
    requires AwaitingOn(ps0, us0, particle) && Missing(ps0[particle], e)
    requires e == MissingEnd(ps0[particle]) && ps0[particle].kind in Slots(vt, e)
    requires FillStaged(From, PendingOf(ps0[particle], particle, From), PendingOf(ps0[particle], particle, To),
                        ps1, us1, vs1, outs, o1, i1)
    requires FillTyped(vt.outputTypes, [particle], ps1, outs, chosen1)
    requires e == From ==> FillPlaced(vt.outputTypes, outs, particle, ps0[particle].kind)
    requires FillFresh(From, if e == From then Some(particle) else None, [particle], ps0, us0, vs0, ps1, vs1, outs)
    requires FillStaged(To, o1, i1, ps, us, vs, ins, o2, i2)
    requires FillTyped(vt.inputTypes, chosen1, ps, ins, chosen2)
    requires e == To ==> FillPlaced(vt.inputTypes, ins, particle, ps0[particle].kind)
    requires FillFresh(To, if e == To then Some(particle) else None, chosen1, ps1, us1, vs1, ps, vs, ins)
    ensures Assembled(ps0, us0, ps, vt, particle, e, ins, outs)
    ensures |ps| >= |ps0| && vs == vs0 + Range(|ps0|, |ps|)
    ensures forall q :: 0 <= q < |ps0| ==> ps[q] == ps0[q]
    ensures Linkable(ps, ins, outs)
    ensures StagedOn(ps, us, outs, ins + (if e == From then PendingOf(ps0[particle], particle, To) else []))
    ensures AllBelow(vs, |ps|)
  {
    var place1, place2 := if e == From then Some(particle) else None, if e == To then Some(particle) else None;
    SidesDistinct(ps1, ps, vt, particle, e, place1, place2, ps0, us0, vs0, us1, vs1, vs, outs, chosen1, ins, chosen2);
    InputsFresh(ps0, us0, vs0, ps1, us1, vs1, ps, vs, particle, place2, chosen1, ins);
    PendingAfter(ps0[particle], particle, e, vt, outs, o1, i1, ins, o2, i2);
    VirtualsAppend(vs0, vs1, vs, |ps0|, |ps1|, |ps|);
    var rest := if e == From then PendingOf(ps0[particle], particle, To) else [];
    StagedSame(ps, us, o2, i2, outs, ins + rest);
    StagedLinkable(ps, us, outs, ins, rest);
  }

  /** Particles pending on a side of the vertex miss the end it links, so
      a duplicate-free side can be linked. */
  lemma StagedLinkable(ps: seq<Particle>, us: seq<PId>, outs: seq<PId>, ins: seq<PId>, rest: seq<PId>)
    requires StagedOn(ps, us, outs, ins + rest) && NoDuplicates(ins + outs)
    ensures Linkable(ps, ins, outs)
  {
    forall j | 0 <= j < |ins| ensures ins[j] < |ps| && ps[ins[j]].to.None? {
      assert (ins + rest)[j] == ins[j];
    }
    forall i, j | 0 <= i < j < |ins| ensures ins[i] != ins[j] {
      assert (ins + outs)[i] == ins[i] && (ins + outs)[j] == ins[j];
    }
    forall i, j | 0 <= i < j < |outs| ensures outs[i] != outs[j] {
      assert (ins + outs)[|ins| + i] == outs[i] && (ins + outs)[|ins| + j] == outs[j];
    }
  }

  /** The bookkeeping only depends on which particles are pending. */
  lemma StagedSame(ps: seq<Particle>, us: seq<PId>, outs: seq<PId>, ins: seq<PId>, outs': seq<PId>, ins': seq<PId>)
    requires StagedOn(ps, us, outs, ins)
    requires (forall x :: x in outs <==> x in outs') && (forall x :: x in ins <==> x in ins')
    ensures StagedOn(ps, us, outs', ins')
  {
    forall j | 0 <= j < |outs'| ensures outs'[j] < |ps| && ps[outs'[j]].from.None? {
      assert outs'[j] in outs;
    }
    forall j | 0 <= j < |ins'| ensures ins'[j] < |ps| && ps[ins'[j]].to.None? {
      assert ins'[j] in ins;
    }
  }

  // ---------------------------------------------------------------------
  // The generator
  // ---------------------------------------------------------------------

  /** The particles `generate` starts from, ids `0 .. n + m - 1`: one per
      input class with its incoming vertex (vertex `i`) as `from`, then one
      per output class with its outgoing vertex (vertex `n + j`) as `to`. */
  function SeedParticles(inTypes: seq<Kind>, outTypes: seq<Kind>): (ps: seq<Particle>)
    ensures |ps| == |inTypes| + |outTypes|
    ensures forall i :: 0 <= i < |inTypes| ==> ps[i] == Particle(inTypes[i], Some(i), None)
    ensures forall i :: |inTypes| <= i < |ps| ==> ps[i] == Particle(outTypes[i - |inTypes|], None, Some(i))
  {
    var n := |inTypes|;
    seq(n + |outTypes|, i requires 0 <= i < n + |outTypes| =>
      if i < n then Particle(inTypes[i], Some(i), None) else Particle(outTypes[i - n], None, Some(i)))
  }

  /** The origin vertices: vertex `i` is the incoming or outgoing vertex of
      particle `i`. */
  function SeedVertices(n: nat, m: nat): (vst: seq<Vertex>)
    ensures |vst| == n + m
    ensures forall i :: 0 <= i < n ==> vst[i] == Incoming(i)
    ensures forall i :: n <= i < n + m ==> vst[i] == Outgoing(i)
  {
    seq(n + m, i requires 0 <= i < n + m => if i < n then Incoming(i) else Outgoing(i))
  }

  /** The starting particles and vertices are in place, and the particles
      are all unlinked, each missing exactly one end. */
  lemma SeedStaged(inTypes: seq<Kind>, outTypes: seq<Kind>, ps: seq<Particle>, us: seq<PId>, vst: seq<Vertex>)
    requires var n, m := |inTypes|, |outTypes|;
      ps == SeedParticles(inTypes, outTypes) && us == Range(0, n) + Range(n, n + m) && vst == SeedVertices(n, m)
    ensures StagedOn(ps, us, [], []) && Seeded(inTypes, outTypes, ps, vst)
  {
    var n, m := |inTypes|, |outTypes|;
    RangeConcat(0, n, n + m);
    forall p | 0 <= p < |ps| ensures Settled(ps[p], false, false, p in us) {
      assert us[p] == p;
    }
  }

  /** Between two iterations of `generate`, the particle `takeUnlinkedParticle`
      takes misses exactly one end, and the state is the one
      `generateVertex` expects. */
  lemma TakeAwaiting(ps: seq<Particle>, us: seq<PId>, p: PId)
    requires StagedOn(ps, us, [], []) && p in us
    ensures AwaitingOn(ps, Without(us, p), p)
    ensures ps[p].from.None? != ps[p].to.None?
  {
    WithoutNoDuplicates(us, p);
    var us' := Without(us, p);
    var k :| 0 <= k < |us| && us[k] == p;
    assert p < |ps|;
    assert Settled(ps[p], p in [], p in [], p in us);
    forall i | 0 <= i < |us'| ensures us'[i] < |ps| {
      assert us'[i] in us;
    }
    forall q | 0 <= q < |ps| && q != p ensures Settled(ps[q], false, false, q in us') {
      assert Settled(ps[q], q in [], q in [], q in us);
    }
  }

  /** The inputs and outputs `generate` starts from, still in place: input
      `i` is particle and vertex `i` with its incoming vertex as `from`,
      output `j` particle and vertex `n + j` with its outgoing vertex as
      `to`. */
  ghost predicate Seeded(inTypes: seq<Kind>, outTypes: seq<Kind>, ps: seq<Particle>, vst: seq<Vertex>)
  {
    var n, m := |inTypes|, |outTypes|;
    |ps| >= n + m && |vst| >= n + m &&
    (forall i :: 0 <= i < n ==>
      ps[i].kind == inTypes[i] && ps[i].from == Some(i) && vst[i] == Incoming(i)) &&
    (forall i :: n <= i < n + m ==>
      ps[i].kind == outTypes[i - n] && ps[i].to == Some(i) && vst[i] == Outgoing(i))
  }

  /** Every set end of a particle is a vertex of the arena that holds the
      particle on the matching side: its own incoming (outgoing) vertex, or
      an inner vertex with it among the outputs (inputs). */
  ghost predicate EndsOn(ps: seq<Particle>, vst: seq<Vertex>)
  {
    forall q :: 0 <= q < |ps| ==>
      (ps[q].from.Some? ==>
         ps[q].from.value < |vst| &&
         (vst[ps[q].from.value] == Incoming(q) ||
          (vst[ps[q].from.value].Inner? && q in vst[ps[q].from.value].outputs))) &&
      (ps[q].to.Some? ==>
         ps[q].to.value < |vst| &&
         (vst[ps[q].to.value] == Outgoing(q) ||
          (vst[ps[q].to.value].Inner? && q in vst[ps[q].to.value].inputs)))
  }

  /** The starting particles end on their origin vertices. */
  lemma SeedEnds(inTypes: seq<Kind>, outTypes: seq<Kind>)
    ensures EndsOn(SeedParticles(inTypes, outTypes), SeedVertices(|inTypes|, |outTypes|))
  {
  }

  /** Pushing an inner vertex whose slots were linked as `Relinked` says
      keeps every end on a vertex that holds its particle. */
  lemma EndsStep(ps0: seq<Particle>, vst0: seq<Vertex>, ps: seq<Particle>, vst: seq<Vertex>, v: VId)
    requires EndsOn(ps0, vst0)
    requires v == |vst0| && |vst| == v + 1 && vst[..v] == vst0 && vst[v].Inner?
    requires Relinked(ps0, ps, v, vst[v].inputs, vst[v].outputs)
    ensures EndsOn(ps, vst)
  {
    forall q | 0 <= q < |ps|
      ensures ps[q].from.Some? ==>
        ps[q].from.value < |vst| &&
        (vst[ps[q].from.value] == Incoming(q) ||
         (vst[ps[q].from.value].Inner? && q in vst[ps[q].from.value].outputs))
      ensures ps[q].to.Some? ==>
        ps[q].to.value < |vst| &&
        (vst[ps[q].to.value] == Outgoing(q) ||
         (vst[ps[q].to.value].Inner? && q in vst[ps[q].to.value].inputs))
    {
      if q < |ps0| {
        if ps0[q].from.Some? { assert vst[..v][ps0[q].from.value] == vst[ps0[q].from.value]; }
        if ps0[q].to.Some? { assert vst[..v][ps0[q].to.value] == vst[ps0[q].to.value]; }
      }
    }
  }

  /** In a finished diagram whose `vertices` are every vertex after the
      `lo` origin vertices, each end of a particle is its own origin vertex
      or one of the diagram's `vertices`, holding the particle on the
      matching side. */
  lemma EndsInDiagram(ps: seq<Particle>, vst: seq<Vertex>, vertices: seq<VId>, lo: nat)
    requires EndsOn(ps, vst) && lo <= |vst| && vertices == Range(lo, |vst|) && InnerFrom(vst, lo)
    requires forall w :: 0 <= w < lo ==> !vst[w].Inner?
    ensures forall q :: 0 <= q < |ps| && ps[q].from.Some? ==>
      (ps[q].from.value < lo && vst[ps[q].from.value] == Incoming(q)) ||
      (ps[q].from.value in vertices && vst[ps[q].from.value].Inner? && q in vst[ps[q].from.value].outputs)
    ensures forall q :: 0 <= q < |ps| && ps[q].to.Some? ==>
      (ps[q].to.value < lo && vst[ps[q].to.value] == Outgoing(q)) ||
      (ps[q].to.value in vertices && vst[ps[q].to.value].Inner? && q in vst[ps[q].to.value].inputs)
  {
    RangeMembers(lo, |vst|);
  }

  /** Appending the range from `mid` to `hi` to the range from `lo` to
      `mid` gives the range from `lo` to `hi`. */
  lemma AppendedRange(lo: nat, mid: nat, hi: nat, s0: seq<nat>, s: seq<nat>)
    requires lo <= mid <= hi && s0 == Range(lo, mid) && s == s0 + Range(mid, hi)
    ensures s == Range(lo, hi)
  {
    RangeConcat(lo, mid, hi);
  }

  /** `s` counts up from `lo`: its entries are `lo`, `lo + 1`, ... */
  ghost predicate Consecutive(s: seq<nat>, lo: nat)
  {
    forall j :: 0 <= j < |s| ==> s[j] == lo + j
  }

  /** A list counting up from `lo` is the range from `lo` to its end. */
  lemma ConsecutiveRange(s: seq<nat>, lo: nat)
    requires Consecutive(s, lo)
    ensures s == Range(lo, lo + |s|)
  {
  }

  /** The vertices `generate` pushed: distinct inner vertices, none of them
      among the first `lo` (the origin vertices). */
  ghost predicate InnerVertices(vst: seq<Vertex>, vertices: seq<VId>, lo: nat)
  {
    AllBelow(vertices, |vst|) && NoDuplicates(vertices) &&
    forall j :: 0 <= j < |vertices| ==> lo <= vertices[j] && vst[vertices[j]].Inner?
  }

  /** Every vertex past the first `lo` is an inner vertex. */
  ghost predicate InnerFrom(vst: seq<Vertex>, lo: nat)
  {
    forall w :: lo <= w < |vst| ==> vst[w].Inner?
  }

  /** When every vertex past the `lo` origin vertices is inner, the list of
      those vertices is a list of distinct inner vertices. */
  lemma RangeInner(vst: seq<Vertex>, vertices: seq<VId>, lo: nat)
    requires lo <= |vst| && vertices == Range(lo, |vst|) && InnerFrom(vst, lo)
    ensures InnerVertices(vst, vertices, lo)
  {
    assert forall j :: 0 <= j < |vertices| ==> vertices[j] == lo + j;
  }

  /** What `generate` keeps between iterations, on the arenas and lists as
      values: the inputs and outputs are the first particles and sit on
      their origin vertices, every vertex past those is inner, `virtuals`
      is every particle minted since the start, `vertices` every vertex
      pushed since, and every set end lies on a vertex holding the
      particle. */
  ghost predicate Generated(inTypes: seq<Kind>, outTypes: seq<Kind>, ps: seq<Particle>, vst: seq<Vertex>,
                            ins: seq<PId>, outs: seq<PId>, vs: seq<PId>, vertices: seq<VId>)
  {
    var n, m := |inTypes|, |outTypes|;
    ins == Range(0, n) && outs == Range(n, n + m) &&
    Seeded(inTypes, outTypes, ps, vst) && InnerFrom(vst, n + m) && vs == Range(n + m, |ps|) &&
    |vst| == n + m + |vertices| && Consecutive(vertices, n + m) && EndsOn(ps, vst)
  }

  /** One iteration of `generate` keeps `Generated`: the particles are
      extended and relinked by a new inner vertex pushed at the end. */
  lemma GenerateStep(inTypes: seq<Kind>, outTypes: seq<Kind>, ins: seq<PId>, outs: seq<PId>,
                     ps0: seq<Particle>, vst0: seq<Vertex>, vs0: seq<PId>, vertices0: seq<VId>,
                     ps: seq<Particle>, vst: seq<Vertex>, vs: seq<PId>, vertices: seq<VId>)
    requires Generated(inTypes, outTypes, ps0, vst0, ins, outs, vs0, vertices0)
    requires Extends(ps0, ps) && vs == vs0 + Range(|ps0|, |ps|)
    requires |vst| == |vst0| + 1 && vst[..|vst0|] == vst0 && vst[|vst0|].Inner? && vertices == vertices0 + [|vst0|]
    requires Relinked(ps0, ps, |vst0|, vst[|vst0|].inputs, vst[|vst0|].outputs)
    ensures Generated(inTypes, outTypes, ps, vst, ins, outs, vs, vertices)
  {
    var lo := |inTypes| + |outTypes|;
    SeededStep(inTypes, outTypes, ps0, vst0, ps, vst);
    forall w | lo <= w < |vst| ensures vst[w].Inner? {
      if w < |vst0| { assert vst[..|vst0|][w] == vst[w]; }
    }
    AppendedRange(lo, |ps0|, |ps|, vs0, vs);
    EndsStep(ps0, vst0, ps, vst, |vst0|);
  }

  /** Extending the particles and pushing a vertex keeps the inputs and
      outputs on their origin vertices. */
  lemma SeededStep(inTypes: seq<Kind>, outTypes: seq<Kind>, ps0: seq<Particle>, vst0: seq<Vertex>,
                   ps: seq<Particle>, vst: seq<Vertex>)
    requires Seeded(inTypes, outTypes, ps0, vst0) && Extends(ps0, ps)
    requires |vst| == |vst0| + 1 && vst[..|vst0|] == vst0
    ensures Seeded(inTypes, outTypes, ps, vst)
  {
    forall i | 0 <= i < |inTypes| + |outTypes| ensures vst[i] == vst0[i] {
      assert vst[..|vst0|][i] == vst[i];
    }
  }

  /** With `unlinked` empty, the bookkeeping says every particle has both
      ends. */
  lemma DoneLinked(ps: seq<Particle>)
    requires StagedOn(ps, [], [], [])
    ensures forall q :: 0 <= q < |ps| ==> ps[q].from.Some? && ps[q].to.Some?
  {
    forall q | 0 <= q < |ps| ensures ps[q].from.Some? && ps[q].to.Some? {
      assert Settled(ps[q], q in [], q in [], q in []);
    }
  }

  class Generator {
    const table: Table
    const rng: RandomSource
    const inputTypes: seq<Kind>
    const outputTypes: seq<Kind>
    var lastId: int
    /** Every particle `generate` created, by id. */
    var particles: seq<Particle>
    /** Every vertex `generate` created, by id, origin vertices included. */
    var vertexStore: seq<Vertex>
    var inputs: seq<PId>
    var outputs: seq<PId>
    var unlinked: seq<PId>
    var virtuals: seq<PId>
    /** The inner vertices, in the order `generate` built them. */
    var vertices: seq<VId>

    /** The bookkeeping while a vertex is assembled, with `outs` and `ins`
        waiting for their `from` and `to` end from it. */
    ghost predicate Staged(outs: seq<PId>, ins: seq<PId>)
      reads this
    {
      StagedOn(particles, unlinked, outs, ins) && AllBelow(virtuals, |particles|)
    }

    /** What holds between two iterations of `generate`: every particle in
        `unlinked` misses exactly one end, every other particle none. */
    ghost predicate Inv()
      reads this
    {
      Staged([], [])
    }

    /** The state `generateVertex` is called in: `particle` has just been
        taken out of `unlinked`, every other particle is as `Inv` says. */
    ghost predicate Awaiting(particle: PId)
      reads this
    {
      AwaitingOn(particles, unlinked, particle) && AllBelow(virtuals, |particles|)
    }

    /** `new Generator()`: two random input classes, and the outputs the
        same pair or the pair reversed. */
    constructor (table: Table, rng: RandomSource)
      modifies rng`next
      ensures this.table == table && this.rng == rng
      ensures |inputTypes| == 2 && multiset(outputTypes) == multiset(inputTypes)
      ensures var n := old(rng.next);
        Some(inputTypes[0]) == Sample(AllKinds, rng.values(n)) &&
        Some(inputTypes[1]) == Sample(AllKinds, rng.values(n + 1)) &&
        outputTypes == (if rng.values(n + 2) < 0.5 then inputTypes else [inputTypes[1], inputTypes[0]]) &&
        rng.next == n + 3
      ensures particles == [] && vertexStore == [] && unlinked == [] && virtuals == [] && vertices == []
    {
      this.table := table;
      this.rng := rng;
      var a := RandomParticleType(rng);
      var b := RandomParticleType(rng);
      inputTypes := [a, b];
      var x := rng.Next();
      outputTypes := if x < 0.5 then [a, b] else [b, a];
      lastId := 0;
      particles := [];
      vertexStore := [];
      inputs := [];
      outputs := [];
      unlinked := [];
      virtuals := [];
      vertices := [];
    }

    /** `takeSpecificUnlinkedParticle(p)`: `p` leaves `unlinked`, the rest
        keep their order. */
    method TakeSpecificUnlinkedParticle(p: PId) returns (r: PId)
      modifies this`unlinked
      ensures r == p && unlinked == Without(old(unlinked), p)
    {
      unlinked := Without(unlinked, p);
      r := p;
    }

    /** `takeUnlinkedParticle()`: a sampled particle taken out of
        `unlinked`; `null` when it is empty. */
    method TakeUnlinkedParticle() returns (r: Option<PId>)
      modifies this`unlinked, rng`next
      ensures r == Sample(old(unlinked), rng.values(old(rng.next)))
      ensures rng.next == old(rng.next) + SampleDraws(old(unlinked))
      ensures unlinked == if r.Some? then Without(old(unlinked), r.value) else old(unlinked)
    {
      r := rng.SampleOf(unlinked);
      if r.Some? {
        var p := TakeSpecificUnlinkedParticle(r.value);
      }
    }

    /** `generateParticleOfType(k)`: a fresh particle with both ends unset,
        added to `unlinked` and to `virtuals`. */
    method GenerateParticleOfType(k: Kind) returns (p: PId)
      modifies this`particles, this`unlinked, this`virtuals
      ensures p == old(|particles|) && particles == old(particles) + [Particle(k, None, None)]
      ensures unlinked == old(unlinked) + [p] && virtuals == old(virtuals) + [p]
    {
      p := |particles|;
      particles := particles + [Particle(k, None, None)];
      unlinked := unlinked + [p];
      virtuals := virtuals + [p];
    }

    /** `randomParticleOfType(k, pred)` with `pred` the `canChooseFrom` or
        `canChooseTo` of `generateVertex`: a sampled candidate, taken out of
        `unlinked`, unless there is none or the coin says to mint a fresh
        one. */
    method RandomParticleOfType(k: Kind, e: End, chosen: seq<PId>) returns (p: PId)
      requires AllBelow(unlinked, |particles|) && AllBelow(chosen, |particles|)
      modifies this`particles, this`unlinked, this`virtuals, rng`next
      ensures var c := Candidates(old(particles), old(unlinked), k, e, chosen);
        var s := Sample(c, rng.values(old(rng.next)));
        var n := old(rng.next) + SampleDraws(c);
        if s.None? || Mint(rng.values(n), |old(virtuals)|) then
          p == old(|particles|) && particles == old(particles) + [Particle(k, None, None)] &&
          unlinked == old(unlinked) + [p] && virtuals == old(virtuals) + [p] &&
          rng.next == n + (if s.None? then 0 else 1)
        else
          p == s.value && particles == old(particles) && virtuals == old(virtuals) &&
          unlinked == Without(old(unlinked), p) && rng.next == n + 1
      ensures p < |particles| && p !in chosen && particles[p].kind == k && Missing(particles[p], e)
      ensures p == old(|particles|) ==>
        particles == old(particles) + [Particle(k, None, None)] && unlinked == old(unlinked) + [p] && virtuals == old(virtuals) + [p]
      ensures p != old(|particles|) ==>
        particles == old(particles) && virtuals == old(virtuals) && p in old(unlinked) && unlinked == Without(old(unlinked), p)
    {
      var c := Candidates(particles, unlinked, k, e, chosen);
      var s, mint := rng.SampleOrMint(c, |virtuals|);
      if mint {
        p := GenerateParticleOfType(k);
      } else {
        p := TakeSpecificUnlinkedParticle(s.value);
      }
    }

    /** The `chooseFrom` (`e == From`) and `chooseTo` (`e == To`) closures
        of `generateVertex`, less the push onto `chosen` that the caller
        does: a particle of class `k` with end `e` missing and not in
        `chosen`, which then waits for that end from the vertex. */
    method Choose(k: Kind, e: End, chosen: seq<PId>, ghost outs: seq<PId>, ghost ins: seq<PId>) returns (p: PId)
      requires Staged(outs, ins) && AllBelow(chosen, |particles|)
      requires forall x :: x in outs || x in ins ==> x in chosen
      modifies this`particles, this`unlinked, this`virtuals, rng`next
      ensures Staged(Pend(outs, From, e, p), Pend(ins, To, e, p))
      ensures p < |particles| && p !in chosen && particles[p].kind == k
      ensures p >= old(|particles|) || (p in old(unlinked) && Missing(old(particles[p]), e))
      ensures |particles| >= old(|particles|) && forall q :: 0 <= q < old(|particles|) ==> particles[q] == old(particles[q])
      ensures virtuals == old(virtuals) + Range(old(|particles|), |particles|)
      ensures p == old(|particles|) ==>
        |particles| == p + 1 && particles[p] == Particle(k, None, None) && unlinked == old(unlinked) + [p]
      ensures p != old(|particles|) ==> |particles| == old(|particles|) && unlinked == Without(old(unlinked), p)
    {
      ghost var ps, us, vs := particles, unlinked, virtuals;
      p := RandomParticleOfType(k, e, chosen);
      PickStaged(ps, us, vs, particles, unlinked, virtuals, outs, ins, chosen, p, k, e);
    }

    /** The two `map`s of one branch of `generateVertex`: the outputs of
        type `t` filled with `chooseFrom`, then its inputs with `chooseTo`,
        `particle` going into the first slot of its class on the side that
        links its missing end `e`, all sharing one `chosen` list. */
    method FillVertex(particle: PId, t: TypeId, e: End) returns (ins: seq<PId>, outs: seq<PId>)
      requires Awaiting(particle) && e == MissingEnd(particles[particle]) && Missing(particles[particle], e)
      requires t < |table.types| && particles[particle].kind in Slots(table.types[t], e)
      modifies this`particles, this`unlinked, this`virtuals, rng`next
      ensures |particles| >= old(|particles|)
      ensures virtuals == old(virtuals) + Range(old(|particles|), |particles|)
      ensures Linkable(particles, ins, outs)
      ensures var v := |vertexStore|;
        var linked := LinkEnds(particles, ins, outs, v);
        Built(old(particles), old(unlinked), linked, vertexStore, vertexStore + [Inner(t, ins, outs)], v, table, particle, e) &&
        StagedOn(linked, unlinked, [], if e == From then PendingOf(old(particles[particle]), particle, To) else []) &&
        AllBelow(virtuals, |linked|) && Extends(old(particles), linked)
      ensures forall q :: 0 <= q < old(|particles|) ==> particles[q] == old(particles[q])
      ensures Relinked(old(particles), LinkEnds(particles, ins, outs, |vertexStore|), |vertexStore|, ins, outs)
      ensures unlinked == Outside(old(unlinked), ins + outs) + Range(old(|particles|), |particles|)
    {
      ghost var ps0, us0, vs0 := particles, unlinked, virtuals;
      ghost var o0, i0 := PendingOf(particles[particle], particle, From), PendingOf(particles[particle], particle, To);
      AwaitingStaged(particles, unlinked, particle);
      var vt := table.types[t];
      var place1, place2 := if e == From then Some(particle) else None, if e == To then Some(particle) else None;
      var chosen1, chosen2;
      ghost var o1, i1, o2, i2;
      outs, chosen1, o1, i1 := FillSlots(vt.outputTypes, From, place1, [particle], o0, i0);
      ghost var ps1, us1, vs1 := particles, unlinked, virtuals;
      ins, chosen2, o2, i2 := FillSlots(vt.inputTypes, To, place2, chosen1, o1, i1);
      Assemble(ps0, us0, vs0, ps1, us1, vs1, particles, unlinked, virtuals, vt, particle, e,
               outs, chosen1, o1, i1, ins, chosen2, o2, i2);
      ReadyToLink(ps0, us0, particles, unlinked, vertexStore, table, t, particle, e, ins, outs);
      FilledTracked(ps0, us0, ps1, us1, particles, unlinked, ins, outs);
      LinkRelinked(ps0, particles, ins, outs, |vertexStore|);
    }

    /** `generateVertex(particle)`: a particle with both ends set throws;
        otherwise a vertex type is sampled among those that can serve as
        the missing end (`from` first), its slots are filled and the vertex
        is constructed. */
    method GenerateVertex(particle: PId) returns (r: Result<VId, GenError>)
      requires Consistent(table) && Awaiting(particle)
      modifies this`particles, this`unlinked, this`virtuals, this`vertexStore, rng`next
      ensures old(particles[particle].from.Some? && particles[particle].to.Some?) <==>
        r == Failure(FullyLinkedParticleChosen(particle))
      ensures r == Failure(FullyLinkedParticleChosen(particle)) ==>
        particles == old(particles) && unlinked == old(unlinked) && virtuals == old(virtuals) &&
        vertexStore == old(vertexStore) && rng.next == old(rng.next)
      ensures r.Failure? ==>
        r == Failure(FullyLinkedParticleChosen(particle)) ||
        (r == Failure(NoVertexType(particle)) &&
         Possible(table, old(particles[particle].kind), MissingEnd(old(particles[particle]))) == [] &&
         particles == old(particles) && unlinked == old(unlinked) && virtuals == old(virtuals) &&
         vertexStore == old(vertexStore) && rng.next == old(rng.next))
      ensures r.Success? ==>
        var p0 := old(particles[particle]);
        var e := MissingEnd(p0);
        Missing(p0, e) && r.value < |vertexStore| && vertexStore[r.value].Inner? &&
        Some(vertexStore[r.value].vertexType) == Sample(Possible(table, p0.kind, e), rng.values(old(rng.next))) &&
        Built(old(particles), old(unlinked), particles, old(vertexStore), vertexStore, r.value, table, particle, e)
      ensures r.Success? ==> |particles| >= old(|particles|) && virtuals == old(virtuals) + Range(old(|particles|), |particles|)
      ensures r.Success? ==> Staged([], if old(particles[particle].from.None? && particles[particle].to.None?) then [particle] else [])
      ensures r.Success? ==> Extends(old(particles), particles)
      ensures r.Success? ==>
        var inner := vertexStore[r.value];
        Relinked(old(particles), particles, r.value, inner.inputs, inner.outputs) &&
        unlinked == Outside(old(unlinked), inner.inputs + inner.outputs) + Range(old(|particles|), |particles|)
    {
      var rec := particles[particle];
      if rec.from.Some? && rec.to.Some? {
        return Failure(FullyLinkedParticleChosen(particle));
      }
      var e := MissingEnd(rec);
      var s := rng.SampleOf(Possible(table, rec.kind, e));
      if s.None? {
        return Failure(NoVertexType(particle));
      }
      var v := BuildVertex(particle, s.value, e);
      r := Success(v);
    }

    /** The success path of `generateVertex` once the vertex type `t` is
        drawn: its slots filled and the vertex constructed, which never
        fails. */
    method BuildVertex(particle: PId, t: TypeId, e: End) returns (v: VId)
      requires Awaiting(particle) && e == MissingEnd(particles[particle]) && Missing(particles[particle], e)
      requires t < |table.types| && particles[particle].kind in Slots(table.types[t], e)
      modifies this`particles, this`unlinked, this`virtuals, this`vertexStore, rng`next
      ensures Built(old(particles), old(unlinked), particles, old(vertexStore), vertexStore, v, table, particle, e)
      ensures vertexStore[v].vertexType == t
      ensures |particles| >= old(|particles|) && virtuals == old(virtuals) + Range(old(|particles|), |particles|)
      ensures Staged([], if e == From then PendingOf(old(particles[particle]), particle, To) else [])
      ensures Extends(old(particles), particles)
      ensures Relinked(old(particles), particles, v, vertexStore[v].inputs, vertexStore[v].outputs)
      ensures unlinked ==
        Outside(old(unlinked), vertexStore[v].inputs + vertexStore[v].outputs) + Range(old(|particles|), |particles|)
    {
      var ins, outs := FillVertex(particle, t, e);
      var r := ConstructVertex(t, ins, outs);
      v := r.value;
    }

    /** `new VertexType(...inputs, ...outputs)`: a new inner vertex of
        type `t`, which becomes the `to` end of its inputs and the `from`
        end of its outputs; `DoubleLink` if one of those ends is set
        already, before anything is linked. */
    method ConstructVertex(t: TypeId, ins: seq<PId>, outs: seq<PId>) returns (r: Result<VId, GenError>)
      modifies this`particles, this`vertexStore
      ensures Linkable(old(particles), ins, outs) ==>
        r == Success(old(|vertexStore|)) && vertexStore == old(vertexStore) + [Inner(t, ins, outs)] &&
        particles == LinkEnds(old(particles), ins, outs, r.value)
      ensures !Linkable(old(particles), ins, outs) ==>
        r == Failure(DoubleLink) && vertexStore == old(vertexStore) && particles == old(particles)
    {
      if !Linkable(particles, ins, outs) {
        return Failure(DoubleLink);
      }
      var v := |vertexStore|;
      vertexStore := vertexStore + [Inner(t, ins, outs)];
      particles := LinkEnds(particles, ins, outs, v);
      r := Success(v);
    }

    /** One side of `generateVertex`: the `map` over the slot classes
        `kinds`, which puts `place` (the chosen particle, if this is its
        side) in the first slot of its class and fills every other slot
        with `chooseFrom` (`e == From`) or `chooseTo` (`e == To`), pushing
        each pick onto `chosen`. The ghost `outs` and `ins` are the
        particles waiting for their `from` and `to` end from the vertex,
        before and after. */
    method FillSlots(kinds: seq<Kind>, e: End, place: Option<PId>, chosen0: seq<PId>,
                     ghost outs0: seq<PId>, ghost ins0: seq<PId>)
      returns (filled: seq<PId>, chosen: seq<PId>, ghost outs: seq<PId>, ghost ins: seq<PId>)
      requires Staged(outs0, ins0)
      requires AllBelow(chosen0, |particles|)
      requires forall x :: x in outs0 || x in ins0 ==> x in chosen0
      requires place.Some? ==> place.value in chosen0 && place.value in (if e == From then outs0 else ins0)
      requires place.Some? ==> place.value !in unlinked
      modifies this`particles, this`unlinked, this`virtuals, rng`next
      ensures FillStaged(e, outs0, ins0, particles, unlinked, virtuals, filled, outs, ins)
      ensures FillTyped(kinds, chosen0, particles, filled, chosen)
      ensures place.Some? ==> FillPlaced(kinds, filled, place.value, old(particles[place.value].kind))
      ensures FillFresh(e, place, chosen0, old(particles), old(unlinked), old(virtuals), particles, virtuals, filled)
      ensures unlinked == Outside(old(unlinked), filled) + Range(old(|particles|), |particles|)
      ensures Minted(old(|particles|), particles, filled, [])
    {
      ghost var ps0, us0, vs0 := particles, unlinked, virtuals;
      filled := [];
      chosen := chosen0;
      outs, ins := outs0, ins0;
      var chosenSlot := false;
      OutsideDisjoint(us0, filled);
      assert FillTracked(|ps0|, us0, particles, unlinked, filled);
      for i := 0 to |kinds|
        invariant FillStaged(e, outs0, ins0, particles, unlinked, virtuals, filled, outs, ins)
        invariant FillTyped(kinds[..i], chosen0, particles, filled, chosen)
        invariant place.Some? ==> FillPlaced(kinds[..i], filled, place.value, ps0[place.value].kind)
        invariant FillFresh(e, place, chosen0, ps0, us0, vs0, particles, virtuals, filled)
        invariant chosenSlot <==> place.Some? && place.value in filled
        invariant FillTracked(|ps0|, us0, particles, unlinked, filled)
      {
        PrefixSnoc(kinds, i);
        if place.Some? && !chosenSlot && kinds[i] == particles[place.value].kind {
          PlaceStep(kinds[..i], kinds[i], e, place.value, chosen0, outs0, ins0, ps0, us0, vs0,
                    particles, unlinked, virtuals, filled, chosen, outs, ins);
          PlaceTracked(|ps0|, us0, particles, unlinked, filled, place.value);
          chosenSlot := true;
          filled := filled + [place.value];
        } else {
          ghost var ps1, us1, vs1 := particles, unlinked, virtuals;
          var p := Choose(kinds[i], e, chosen, outs, ins);
          PickStep(kinds[..i], kinds[i], e, place, p, chosen0, outs0, ins0, ps0, us0, vs0, ps1, us1, vs1,
                   particles, unlinked, virtuals, filled, chosen, outs, ins);
          PickTracked(|ps0|, us0, ps1, us1, particles, unlinked, filled, p);
          chosen := chosen + [p];
          filled := filled + [p];
          outs, ins := Pend(outs, From, e, p), Pend(ins, To, e, p);
        }
      }
      assert kinds[..|kinds|] == kinds;
    }

    /** `takeUnlinkedParticle()` between two iterations of `generate`: the
        particle taken misses exactly one end. */
    method TakeAwaitingParticle() returns (particle: PId)
      requires Inv() && |unlinked| > 0
      modifies this`unlinked, rng`next
      ensures Awaiting(particle) && particles[particle].from.None? != particles[particle].to.None?
      ensures Some(particle) == Sample(old(unlinked), rng.values(old(rng.next)))
      ensures unlinked == Without(old(unlinked), particle) && rng.next == old(rng.next) + SampleDraws(old(unlinked))
    {
      ghost var ps0, us0 := particles, unlinked;
      var taken := TakeUnlinkedParticle();
      particle := taken.value;
      TakeAwaiting(ps0, us0, particle);
    }

    /** What holds between two iterations of `generate`: the bookkeeping of
        `Inv`, the inputs and outputs still in place, the pushed vertices
        distinct inner vertices, and `virtuals` every particle minted since
        the start. */
    ghost predicate Generating()
      reads this
    {
      Inv() && Generated(inputTypes, outputTypes, particles, vertexStore, inputs, outputs, virtuals, vertices)
    }

    /** The body of the loop in `generate()`: take a particle out of
        `unlinked`, build a vertex for it and push that vertex. Since the
        taken particle misses exactly one end, `generateVertex` never throws
        for being handed a fully linked one. */
    method Step() returns (r: Result<VId, GenError>, particle: PId)
      requires Consistent(table) && Inv() && |unlinked| > 0
      modifies this`particles, this`unlinked, this`virtuals, this`vertexStore, this`vertices, rng`next
      ensures Some(particle) == Sample(old(unlinked), rng.values(old(rng.next)))
      ensures r.Failure? ==>
        var p0 := old(particles[particle]);
        r == Failure(NoVertexType(particle)) && Possible(table, p0.kind, MissingEnd(p0)) == [] &&
        particles == old(particles) && unlinked == Without(old(unlinked), particle) && virtuals == old(virtuals) &&
        vertexStore == old(vertexStore) && vertices == old(vertices) &&
        rng.next == old(rng.next) + SampleDraws(old(unlinked))
      ensures r.Success? ==>
        var v := old(|vertexStore|);
        Inv() && r.value == v && vertices == old(vertices) + [v] &&
        Extends(old(particles), particles) && virtuals == old(virtuals) + Range(old(|particles|), |particles|) &&
        |vertexStore| == v + 1 && vertexStore[..v] == old(vertexStore) && vertexStore[v].Inner?
      ensures r.Success? ==>
        var v, p0 := old(|vertexStore|), old(particles[particle]);
        Some(vertexStore[v].vertexType) ==
          Sample(Possible(table, p0.kind, MissingEnd(p0)), rng.values(old(rng.next) + SampleDraws(old(unlinked)))) &&
        Relinked(old(particles), particles, v, vertexStore[v].inputs, vertexStore[v].outputs) &&
        unlinked == Outside(Without(old(unlinked), particle), vertexStore[v].inputs + vertexStore[v].outputs) +
                    Range(old(|particles|), |particles|)
    {
      particle := TakeAwaitingParticle();
      r := PushVertex(particle);
    }

    /** `this.vertices.push(this.generateVertex(particle))` for a particle
        just taken out of `unlinked`, which misses exactly one end, so that
        `generateVertex` does not throw for it. */
    method PushVertex(particle: PId) returns (r: Result<VId, GenError>)
      requires Consistent(table) && Awaiting(particle)
      requires particles[particle].from.None? != particles[particle].to.None?
      modifies this`particles, this`unlinked, this`virtuals, this`vertexStore, this`vertices, rng`next
      ensures r.Failure? ==>
        var p0 := old(particles[particle]);
        r == Failure(NoVertexType(particle)) && Possible(table, p0.kind, MissingEnd(p0)) == [] &&
        particles == old(particles) && unlinked == old(unlinked) && virtuals == old(virtuals) &&
        vertexStore == old(vertexStore) && vertices == old(vertices) && rng.next == old(rng.next)
      ensures r.Success? ==>
        var v := old(|vertexStore|);
        Inv() && r.value == v && vertices == old(vertices) + [v] &&
        Extends(old(particles), particles) && virtuals == old(virtuals) + Range(old(|particles|), |particles|) &&
        |vertexStore| == v + 1 && vertexStore[..v] == old(vertexStore) && vertexStore[v].Inner?
      ensures r.Success? ==>
        var v, p0 := old(|vertexStore|), old(particles[particle]);
        Some(vertexStore[v].vertexType) == Sample(Possible(table, p0.kind, MissingEnd(p0)), rng.values(old(rng.next))) &&
        Relinked(old(particles), particles, v, vertexStore[v].inputs, vertexStore[v].outputs) &&
        unlinked == Outside(old(unlinked), vertexStore[v].inputs + vertexStore[v].outputs) + Range(old(|particles|), |particles|)
    {
      r := GenerateVertex(particle);
      if r.Success? {
        assert Staged([], []);
        vertices := vertices + [r.value];
      } else {
        assert r != Failure(FullyLinkedParticleChosen(particle));
      }
    }

    /** `Step` as the loop of `generate()` uses it. */
    method Iterate() returns (r: Result<VId, GenError>)
      requires Consistent(table) && Generating() && |unlinked| > 0
      modifies this`particles, this`unlinked, this`virtuals, this`vertexStore, this`vertices, rng`next
      ensures r.Failure? ==>
        r.error.NoVertexType? &&
        particles == old(particles) && virtuals == old(virtuals) &&
        vertexStore == old(vertexStore) && vertices == old(vertices)
      ensures r.Success? ==>
        var v := old(|vertexStore|);
        Generating() && r.value == v && vertices == old(vertices) + [v] &&
        Extends(old(particles), particles) && virtuals == old(virtuals) + Range(old(|particles|), |particles|) &&
        |vertexStore| == v + 1 && vertexStore[..v] == old(vertexStore) && vertexStore[v].Inner?
    {
      ghost var ps0, vst0, vs0, vertices0 := particles, vertexStore, virtuals, vertices;
      assert Generated(inputTypes, outputTypes, ps0, vst0, inputs, outputs, vs0, vertices0);
      var particle;
      r, particle := Step();
      if r.Success? {
        GenerateStep(inputTypes, outputTypes, inputs, outputs, ps0, vst0, vs0, vertices0,
                     particles, vertexStore, virtuals, vertices);
      }
    }

    /** The opening of `generate()`: a fresh particle per input and output
        class, each linked to its incoming or outgoing vertex, all of them
        unlinked, and no inner vertex yet. */
    method Start()
      modifies this`lastId, this`particles, this`vertexStore, this`inputs, this`outputs
      modifies this`unlinked, this`virtuals, this`vertices
      ensures Generating() && unlinked == inputs + outputs && vertices == [] && virtuals == []
      ensures |particles| == |inputTypes| + |outputTypes|
      ensures lastId == 0 && particles == SeedParticles(inputTypes, outputTypes)
      ensures vertexStore == SeedVertices(|inputTypes|, |outputTypes|)
    {
      lastId := 0;
      var n, m := |inputTypes|, |outputTypes|;
      // `new T` for every class, then the origin vertices: particle `i`
      // and vertex `i` are an input or output and its origin.
      particles := SeedParticles(inputTypes, outputTypes);
      vertexStore := SeedVertices(n, m);
      inputs := Range(0, n);
      outputs := Range(n, n + m);
      unlinked := inputs + outputs;
      vertices := [];
      virtuals := [];
      SeedStaged(inputTypes, outputTypes, particles, unlinked, vertexStore);
      SeedEnds(inputTypes, outputTypes);
    }

    /** `generate()`: the inputs and outputs with their incoming and outgoing
        vertices, then one vertex per iteration for a particle taken from
        `unlinked`, until `unlinked` is empty. The loop has no bound in the
        source; `fuel` caps the number of iterations. */
    method Generate(fuel: nat) returns (r: Result<Diagram, GenError>)
      requires Consistent(table) && |inputTypes| + |outputTypes| > 0
      modifies this`lastId, this`particles, this`vertexStore, this`inputs, this`outputs
      modifies this`unlinked, this`virtuals, this`vertices, rng`next
      ensures r.Failure? ==> r.error.NoVertexType? || r.error == OutOfFuel
      ensures var n, m := |inputTypes|, |outputTypes|;
        inputs == Range(0, n) && outputs == Range(n, n + m) &&
        Seeded(inputTypes, outputTypes, particles, vertexStore) && virtuals == Range(n + m, |particles|)
      ensures r.Success? ==>
        r.value == Diagram(inputs, outputs, virtuals, vertices) &&
        unlinked == [] && 1 <= |vertices| <= fuel &&
        InnerVertices(vertexStore, vertices, |inputTypes| + |outputTypes|) &&
        forall q :: 0 <= q < |particles| ==> particles[q].from.Some? && particles[q].to.Some?
      ensures r.Success? ==>
        vertices == Range(|inputTypes| + |outputTypes|, |vertexStore|) && EndsOn(particles, vertexStore)
    {
      Start();
      var n, m := |inputTypes|, |outputTypes|;
      var steps := fuel;
      var first := true;
      while first || |unlinked| > 0
        invariant Generating()
        invariant |vertices| == fuel - steps
        invariant first ==> |unlinked| > 0 && vertices == []
        invariant !first ==> |vertices| >= 1
        decreases steps
      {
        if steps == 0 {
          return Failure(OutOfFuel);
        }
        steps := steps - 1;
        first := false;
        var v := Iterate();
        if v.Failure? {
          return Failure(v.error);
        }
      }
      DoneLinked(particles);
      ConsecutiveRange(vertices, n + m);
      RangeInner(vertexStore, vertices, n + m);
      r := Success(Diagram(inputs, outputs, virtuals, vertices));
    }
  }
}
