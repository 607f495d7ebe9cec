/** The undirected particle/vertex graph of `src/feynman.js`.

    The JavaScript objects point at each other (a particle lists its
    vertices, a vertex lists its particles); here both kinds live in two
    arenas of one `Graph` object and refer to each other by index. */
module Feynman {
  import opened Wrappers
  import opened Sequences

  /** The three particle classes. */
  datatype Kind = Electron | Positron | Photon

  /** The charge each particle class passes to the `Particle` constructor. */
  function Charge(k: Kind): (c: int)
    ensures -1 <= c <= 1
    ensures (c == 0) == (k == Photon)
    ensures k == Electron ==> c == -1
    ensures k == Positron ==> c == 1
  {
    match k
    case Electron => -1
    case Positron => 1
    case Photon => 0
  }

  /** Index of a particle in the particle arena. */
  type PId = nat
  /** Index of a vertex in the vertex arena. */
  type VId = nat

  /** A `Particle`: its charge and its two in-place lists. */
  datatype ParticleRec = ParticleRec(charge: int, neighbours: seq<PId>, vertices: seq<VId>)

  /** A `Vertex`: its particles, and whether it is an `OriginVertex`. */
  datatype VertexRec = VertexRec(particles: seq<PId>, origin: bool)

  /** The one error `addVertex` throws. */
  datatype GraphError = TooManyVertices(particle: PId)

  // ---------------------------------------------------------------------
  // addNeighbour and addVertex as functions on one particle record
  // ---------------------------------------------------------------------

  /** The neighbour list after `addNeighbour(q)` on particle `self`. */
  function WithNeighbour(ns: seq<PId>, self: PId, q: PId): (r: seq<PId>)
    ensures r == ns <==> q == self || q in ns
    ensures r != ns ==> r == ns + [q]
    ensures q != self ==> q in r
    ensures self !in ns ==> self !in r
    ensures NoDuplicates(ns) ==> NoDuplicates(r)
  {
    if q == self then ns
    else if q in ns then ns
    else ns + [q]
  }

  /** The neighbour list after `addNeighbour` for each of `qs` in turn. */
  function WithNeighbours(ns: seq<PId>, self: PId, qs: seq<PId>): (r: seq<PId>)
    ensures ns <= r
    ensures forall x :: x in r ==> x in ns || x in qs
    ensures forall x :: x in qs && x != self ==> x in r
    ensures self !in ns ==> self !in r
    ensures NoDuplicates(ns) ==> NoDuplicates(r)
  {
    if qs == [] then ns
    else
      var r := WithNeighbour(WithNeighbours(ns, self, qs[..|qs| - 1]), self, qs[|qs| - 1]);
      assert qs == qs[..|qs| - 1] + [qs[|qs| - 1]];
      r
  }

  /** The record of particle `self` after `addVertex(v)`, where `vps` are
      the particles of `v`; a failure is the error it throws. */
  function AttachVertex(r: ParticleRec, self: PId, v: VId, vps: seq<PId>): (res: Result<ParticleRec, GraphError>)
    ensures v in r.vertices ==> res == Success(r)
    ensures res.Failure? <==> v !in r.vertices && |r.vertices| == 2
    ensures res.Failure? ==> res.error == TooManyVertices(self)
    ensures res.Success? ==> res.value.charge == r.charge && v in res.value.vertices
    ensures res.Success? && v !in r.vertices ==> res.value.vertices == r.vertices + [v]
    ensures res.Success? && v !in r.vertices ==> forall q :: q in vps && q != self ==> q in res.value.neighbours
    ensures res.Success? ==> forall q :: q in res.value.neighbours ==> q in r.neighbours || (q in vps && q != self)
    ensures res.Success? ==> r.neighbours <= res.value.neighbours
    ensures res.Success? && |r.vertices| <= 2 ==> |res.value.vertices| <= 2
  {
    if v in r.vertices then Success(r)
    else if |r.vertices| == 2 then Failure(TooManyVertices(self))
    else Success(r.(vertices := r.vertices + [v], neighbours := WithNeighbours(r.neighbours, self, vps)))
  }

  /** What the graph keeps true of every particle record: its neighbours
      and vertices exist, it is not its own neighbour, neither list holds a
      duplicate, and it has at most two vertices. */
  ghost predicate ParticleOk(r: ParticleRec, self: PId, np: nat, nv: nat)
  {
    (forall q :: q in r.neighbours ==> q < np) &&
    self !in r.neighbours && NoDuplicates(r.neighbours) &&
    (forall w :: w in r.vertices ==> w < nv) &&
    NoDuplicates(r.vertices) && |r.vertices| <= 2
  }

  /** `addVertex` keeps a particle record well formed. */
  lemma AttachVertexOk(r: ParticleRec, self: PId, v: VId, vps: seq<PId>, np: nat, nv: nat)
    requires ParticleOk(r, self, np, nv)
    requires v < nv && AllBelow(vps, np)
    requires AttachVertex(r, self, v, vps).Success?
    ensures ParticleOk(AttachVertex(r, self, v, vps).value, self, np, nv)
  {
    if v !in r.vertices {
      var r' := AttachVertex(r, self, v, vps).value;
      assert r'.vertices == r.vertices + [v];
      forall i, j | 0 <= i < j < |r'.vertices| ensures r'.vertices[i] != r'.vertices[j] {
        if j == |r.vertices| {
          assert r'.vertices[i] == r.vertices[i];
        }
      }
    }
  }

  // ---------------------------------------------------------------------
  // The Vertex constructor: link each particle in turn
  // ---------------------------------------------------------------------

  /** The particle arena after the `Vertex` constructor's loop over `ps`,
      and the position in `ps` where `addVertex` threw, if it did. */
  datatype Linking = Linking(store: seq<ParticleRec>, failedAt: Option<nat>)

  /** `ps.forEach(p => p.addVertex(v))` on the arena `store`, where `vps`
      are the particles of `v`; it stops at the first particle that throws. */
  function LinkAll(store: seq<ParticleRec>, ps: seq<PId>, v: VId, vps: seq<PId>): (r: Linking)
    requires AllBelow(ps, |store|)
    ensures |r.store| == |store|
    ensures r.failedAt.Some? ==> r.failedAt.value < |ps|
    decreases |ps|
  {
    if ps == [] then Linking(store, None)
    else
      var prev := LinkAll(store, ps[..|ps| - 1], v, vps);
      if prev.failedAt.Some? then prev
      else
        var q := ps[|ps| - 1];
        match AttachVertex(prev.store[q], q, v, vps)
        case Success(rec) => Linking(prev.store[q := rec], None)
        case Failure(_) => Linking(prev.store, Some(|ps| - 1))
  }

  /** Once a particle has thrown, the particles after it are not visited. */
  lemma {:induction false} LinkAllStops(store: seq<ParticleRec>, ps: seq<PId>, k: nat, v: VId, vps: seq<PId>)
    requires AllBelow(ps, |store|)
    requires k <= |ps| && LinkAll(store, ps[..k], v, vps).failedAt.Some?
    ensures LinkAll(store, ps, v, vps) == LinkAll(store, ps[..k], v, vps)
    decreases |ps|
  {
    if k < |ps| {
      assert ps[..|ps| - 1][..k] == ps[..k];
      LinkAllStops(store, ps[..|ps| - 1], k, v, vps);
    } else {
      assert ps[..k] == ps;
    }
  }

  /** Particles outside `ps` are untouched by the constructor. */
  lemma {:induction false} LinkAllFrame(store: seq<ParticleRec>, ps: seq<PId>, v: VId, vps: seq<PId>, q: PId)
    requires AllBelow(ps, |store|)
    requires q < |store| && q !in ps
    ensures LinkAll(store, ps, v, vps).store[q] == store[q]
    decreases |ps|
  {
    if ps != [] {
      LinkAllFrame(store, ps[..|ps| - 1], v, vps, q);
    }
  }

  /** Every record the constructor leaves behind is still well formed. */
  lemma {:induction false} LinkAllOk(store: seq<ParticleRec>, ps: seq<PId>, v: VId, vps: seq<PId>, nv: nat)
    requires AllBelow(ps, |store|)
    requires AllBelow(vps, |store|)
    requires v < nv
    requires forall q :: 0 <= q < |store| ==> ParticleOk(store[q], q, |store|, nv)
    ensures forall q :: 0 <= q < |store| ==> ParticleOk(LinkAll(store, ps, v, vps).store[q], q, |store|, nv)
    decreases |ps|
  {
    if ps != [] {
      LinkAllOk(store, ps[..|ps| - 1], v, vps, nv);
      var prev := LinkAll(store, ps[..|ps| - 1], v, vps);
      var q := ps[|ps| - 1];
      if prev.failedAt.None? && AttachVertex(prev.store[q], q, v, vps).Success? {
        AttachVertexOk(prev.store[q], q, v, vps, |store|, nv);
      }
    }
  }

  /** With a vertex no particle has seen yet, the constructor succeeds
      exactly when no particle of it already has two vertices, and then
      each of them has gained exactly that vertex, at the end of its list. */
  lemma {:induction false} LinkAllFresh(store: seq<ParticleRec>, ps: seq<PId>, v: VId, vps: seq<PId>)
    requires AllBelow(ps, |store|)
    requires forall q :: q in ps ==> v !in store[q].vertices && |store[q].vertices| <= 2
    ensures LinkAll(store, ps, v, vps).failedAt.None? <==> forall q :: q in ps ==> |store[q].vertices| < 2
    ensures LinkAll(store, ps, v, vps).failedAt.None? ==>
              forall q :: q in ps ==> LinkAll(store, ps, v, vps).store[q] == AttachVertex(store[q], q, v, vps).value &&
                                      LinkAll(store, ps, v, vps).store[q].vertices == store[q].vertices + [v]
    decreases |ps|
  {
    if ps != [] {
      var init := ps[..|ps| - 1];
      var q := ps[|ps| - 1];
      assert ps == init + [q];
      LinkAllFresh(store, init, v, vps);
      var prev := LinkAll(store, init, v, vps);
      if prev.failedAt.None? {
        if q in init {
          assert prev.store[q].vertices == store[q].vertices + [v];
        } else {
          LinkAllFrame(store, init, v, vps, q);
        }
      }
    }
  }

  /** When the constructor throws at position `k`, the particle there
      already had two other vertices and every particle before it stays
      linked to the new vertex. */
  lemma {:induction false} LinkAllFailure(store: seq<ParticleRec>, ps: seq<PId>, v: VId, vps: seq<PId>)
    requires AllBelow(ps, |store|)
    requires LinkAll(store, ps, v, vps).failedAt.Some?
    ensures var r := LinkAll(store, ps, v, vps); var k := r.failedAt.value;
      |r.store[ps[k]].vertices| == 2 && v !in r.store[ps[k]].vertices &&
      forall i :: 0 <= i < k ==> v in r.store[ps[i]].vertices
    decreases |ps|
  {
    var init := ps[..|ps| - 1];
    var prev := LinkAll(store, init, v, vps);
    var r := LinkAll(store, ps, v, vps);
    assert forall i :: 0 <= i < |init| ==> init[i] == ps[i];
    if prev.failedAt.Some? {
      LinkAllFailure(store, init, v, vps);
      assert r == prev;
    } else {
      LinkAllLinked(store, init, v, vps);
      var q := ps[|ps| - 1];
      assert AttachVertex(prev.store[q], q, v, vps).Failure?;
      assert r == Linking(prev.store, Some(|ps| - 1));
    }
  }

  /** After a run that did not throw, every particle visited holds the vertex. */
  lemma {:induction false} LinkAllLinked(store: seq<ParticleRec>, ps: seq<PId>, v: VId, vps: seq<PId>)
    requires AllBelow(ps, |store|)
    requires LinkAll(store, ps, v, vps).failedAt.None?
    ensures forall i :: 0 <= i < |ps| ==> v in LinkAll(store, ps, v, vps).store[ps[i]].vertices
    decreases |ps|
  {
    if ps != [] {
      var init := ps[..|ps| - 1];
      LinkAllLinked(store, init, v, vps);
    }
  }

  /** The constructor on a vertex that is newer than every vertex in the
      arena: nothing outside `ps` changes, it succeeds exactly when no
      particle of `ps` already has two vertices, and then each of them has
      the new vertex appended. */
  lemma LinkAllNewVertex(store: seq<ParticleRec>, ps: seq<PId>, v: VId)
    requires AllBelow(ps, |store|)
    requires forall q :: 0 <= q < |store| ==> ParticleOk(store[q], q, |store|, v)
    ensures var r := LinkAll(store, ps, v, ps);
      (forall q :: 0 <= q < |store| && q !in ps ==> r.store[q] == store[q]) &&
      (r.failedAt.None? <==> forall q :: q in ps ==> |store[q].vertices| < 2) &&
      (r.failedAt.None? ==> forall q :: q in ps ==> r.store[q] == AttachVertex(store[q], q, v, ps).value &&
                                                    r.store[q].vertices == store[q].vertices + [v])
  {
    forall q | q in ps ensures v !in store[q].vertices && |store[q].vertices| <= 2 {
      var i :| 0 <= i < |ps| && ps[i] == q;
      assert ParticleOk(store[q], q, |store|, v);
    }
    LinkAllFresh(store, ps, v, ps);
    forall q | 0 <= q < |store| && q !in ps ensures LinkAll(store, ps, v, ps).store[q] == store[q] {
      LinkAllFrame(store, ps, v, ps, q);
    }
  }

  // ---------------------------------------------------------------------
  // The `neighbours` getter and `particleOfNeighbour`
  // ---------------------------------------------------------------------

  /** `ws.filter(w => !seen.includes(w) && w !== self)`. */
  function NewVertices(ws: seq<VId>, seen: seq<VId>, self: VId): (r: seq<VId>)
    ensures forall w :: w in r <==> w in ws && w !in seen && w != self
    ensures NoDuplicates(ws) ==> NoDuplicates(r)
  {
    if ws == [] then []
    else
      assert ws == [ws[0]] + ws[1..];
      (if ws[0] !in seen && ws[0] != self then [ws[0]] else []) + NewVertices(ws[1..], seen, self)
  }

  /** The filter keeps the order of `ws`: it works piecewise. */
  lemma {:induction false} NewVerticesConcat(a: seq<VId>, b: seq<VId>, seen: seq<VId>, self: VId)
    ensures NewVertices(a + b, seen, self) == NewVertices(a, seen, self) + NewVertices(b, seen, self)
    decreases |a|
  {
    if a == [] {
      assert a + b == b;
    } else {
      assert (a + b)[0] == a[0] && (a + b)[1..] == a[1..] + b;
      NewVerticesConcat(a[1..], b, seen, self);
      var h := if a[0] !in seen && a[0] != self then [a[0]] else [];
      ConcatAssoc(h, NewVertices(a[1..], seen, self), NewVertices(b, seen, self));
    }
  }

  /** On one vertex the filter keeps it or drops it. */
  lemma NewVerticesOne(w: VId, seen: seq<VId>, self: VId)
    ensures NewVertices([w], seen, self) == if w !in seen && w != self then [w] else []
  {
  }

  /** A vertex that does not occur in `ws` makes no difference in `seen`. */
  lemma {:induction false} NewVerticesSeen(ws: seq<VId>, seen: seq<VId>, w: VId, self: VId)
    requires w !in ws
    ensures NewVertices(ws, seen + [w], self) == NewVertices(ws, seen, self)
    decreases |ws|
  {
    if ws != [] {
      NewVerticesSeen(ws[1..], seen, w, self);
    }
  }

  /** The vertex lists of the particles `ps`, one after the other. */
  function Flatten(store: seq<ParticleRec>, ps: seq<PId>): seq<VId>
    requires AllBelow(ps, |store|)
  {
    if ps == [] then [] else Flatten(store, ps[..|ps| - 1]) + store[ps[|ps| - 1]].vertices
  }

  /** The first occurrence of each vertex of `ws`, in order, leaving out
      `self` and the vertices in `seen`. */
  function Firsts(ws: seq<VId>, seen: seq<VId>, self: VId): seq<VId>
  {
    if ws == [] then []
    else if ws[0] in seen || ws[0] == self then Firsts(ws[1..], seen, self)
    else [ws[0]] + Firsts(ws[1..], seen + [ws[0]], self)
  }

  lemma {:induction false} FirstsConcat(a: seq<VId>, b: seq<VId>, seen: seq<VId>, self: VId)
    ensures Firsts(a + b, seen, self) == Firsts(a, seen, self) + Firsts(b, seen + Firsts(a, seen, self), self)
    decreases |a|
  {
    if a == [] {
      assert a + b == b && seen + [] == seen;
    } else {
      var w := a[0];
      assert (a + b)[0] == w && (a + b)[1..] == a[1..] + b;
      if w in seen || w == self {
        FirstsConcat(a[1..], b, seen, self);
      } else {
        FirstsConcat(a[1..], b, seen + [w], self);
        ConcatAssoc(seen, [w], Firsts(a[1..], seen + [w], self));
      }
    }
  }

  /** On a duplicate-free list, keeping first occurrences is the filter. */
  lemma {:induction false} FirstsFilter(ws: seq<VId>, seen: seq<VId>, self: VId)
    requires NoDuplicates(ws)
    ensures Firsts(ws, seen, self) == NewVertices(ws, seen, self)
    decreases |ws|
  {
    if ws != [] {
      var w := ws[0];
      assert NoDuplicates(ws[1..]) && w !in ws[1..] by {
        forall i | 0 <= i < |ws[1..]| ensures ws[1..][i] != w { assert ws[1..][i] == ws[i + 1]; }
      }
      if w in seen || w == self {
        FirstsFilter(ws[1..], seen, self);
      } else {
        FirstsFilter(ws[1..], seen + [w], self);
        NewVerticesSeen(ws[1..], seen, w, self);
      }
    }
  }

  /** The `reduce` of the `neighbours` getter of vertex `self` over its
      particles `ps`. */
  function NeighbourList(store: seq<ParticleRec>, ps: seq<PId>, self: VId): seq<VId>
    requires AllBelow(ps, |store|)
  {
    if ps == [] then []
    else
      var a := NeighbourList(store, ps[..|ps| - 1], self);
      a + NewVertices(store[ps[|ps| - 1]].vertices, a, self)
  }

  /** The neighbours of a vertex are the other vertices of its particles,
      each listed once. */
  lemma {:induction false} NeighbourListSpec(store: seq<ParticleRec>, ps: seq<PId>, self: VId)
    requires AllBelow(ps, |store|) && forall i :: 0 <= i < |ps| ==> NoDuplicates(store[ps[i]].vertices)
    ensures var r := NeighbourList(store, ps, self);
      self !in r && NoDuplicates(r) &&
      forall w :: w in r <==> w != self && exists q :: q in ps && w in store[q].vertices
  {
    if ps != [] {
      var init := ps[..|ps| - 1];
      var last := ps[|ps| - 1];
      assert ps == init + [last];
      NeighbourListSpec(store, init, self);
      var a := NeighbourList(store, init, self);
      var b := NewVertices(store[last].vertices, a, self);
      var r := a + b;
      assert forall j :: 0 <= j < |b| ==> b[j] in b;
      ConcatNoDuplicates(a, b);
      forall w | w != self && exists q :: q in ps && w in store[q].vertices
        ensures w in r
      {
        var q :| q in ps && w in store[q].vertices;
        if q != last {
          assert q in init;
        }
      }
    }
  }

  /** The full order of `neighbours`: walking the particles' vertex lists
      one after the other, each vertex other than `self` is listed where it
      first occurs. */
  lemma {:induction false} NeighbourListFirsts(store: seq<ParticleRec>, ps: seq<PId>, self: VId)
    requires AllBelow(ps, |store|) && forall i :: 0 <= i < |ps| ==> NoDuplicates(store[ps[i]].vertices)
    ensures NeighbourList(store, ps, self) == Firsts(Flatten(store, ps), [], self)
    decreases |ps|
  {
    if ps != [] {
      var init, last := ps[..|ps| - 1], ps[|ps| - 1];
      NeighbourListFirsts(store, init, self);
      var a := NeighbourList(store, init, self);
      FirstsConcat(Flatten(store, init), store[last].vertices, [], self);
      assert [] + a == a;
      FirstsFilter(store[last].vertices, a, self);
    }
  }

  /** The neighbours reached through the first particles come first: the
      list is ordered by particle, then by each particle's vertex order. */
  lemma {:induction false} NeighbourListPrefix(store: seq<ParticleRec>, ps: seq<PId>, k: nat, self: VId)
    requires AllBelow(ps, |store|)
    requires k <= |ps|
    ensures NeighbourList(store, ps[..k], self) <= NeighbourList(store, ps, self)
    decreases |ps|
  {
    if k < |ps| {
      assert ps[..|ps| - 1][..k] == ps[..k];
      NeighbourListPrefix(store, ps[..|ps| - 1], k, self);
    } else {
      assert ps[..k] == ps;
    }
  }

  /** `particles.find(p => p.vertices.includes(w))`, as a position in `ps`. */
  function FirstWith(store: seq<ParticleRec>, ps: seq<PId>, w: VId): (r: Option<nat>)
    requires AllBelow(ps, |store|)
    ensures r.None? <==> forall i :: 0 <= i < |ps| ==> w !in store[ps[i]].vertices
    ensures r.Some? ==> r.value < |ps| && w in store[ps[r.value]].vertices &&
                        forall i :: 0 <= i < r.value ==> w !in store[ps[i]].vertices
  {
    if ps == [] then None
    else if w in store[ps[0]].vertices then Some(0)
    else
      var r := FirstWith(store, ps[1..], w);
      if r.None? then None else Some(r.value + 1)
  }

  // ---------------------------------------------------------------------
  // The graph: both arenas and the in-place operations
  // ---------------------------------------------------------------------

  class Graph {
    var particles: seq<ParticleRec>
    var vertices: seq<VertexRec>

    /** Every record is well formed and refers to existing entries. */
    ghost predicate WellFormed()
      reads this
    {
      (forall p :: 0 <= p < |particles| ==> ParticleOk(particles[p], p, |particles|, |vertices|)) &&
      (forall v :: 0 <= v < |vertices| ==> AllBelow(vertices[v].particles, |particles|))
    }

    /** Particle `p` has every other particle of each of its vertices as a
        neighbour: `addVertex` added them when it linked the vertex, and
        neither list ever shrinks. */
    ghost predicate KnowsNeighbours(p: PId)
      reads this
    {
      p < |particles| &&
      forall w, q :: w in particles[p].vertices && w < |vertices| && q in vertices[w].particles && q != p ==>
        q in particles[p].neighbours
    }

    ghost predicate NeighboursKnown()
      reads this
    {
      forall p :: 0 <= p < |particles| ==> KnowsNeighbours(p)
    }

    ghost predicate Valid()
      reads this
    {
      WellFormed() && NeighboursKnown()
    }

    constructor ()
      ensures Valid() && particles == [] && vertices == []
    {
      particles := [];
      vertices := [];
    }

    /** `new Particle(charge)`: a fresh particle with empty lists. */
    method NewParticle(charge: int) returns (p: PId)
      requires Valid()
      modifies this
      ensures Valid()
      ensures p == old(|particles|) && particles == old(particles) + [ParticleRec(charge, [], [])]
      ensures vertices == old(vertices)
    {
      p := |particles|;
      particles := particles + [ParticleRec(charge, [], [])];
      assert forall q :: 0 <= q < p ==> particles[q] == old(particles[q]);
      forall q | 0 <= q < |particles| ensures KnowsNeighbours(q) {
        if q < p {
          assert old(KnowsNeighbours(q));
        }
      }
    }

    /** `addNeighbour`: appends `q` to the neighbours of `p` unless it is
        `p` itself or already there. */
    method AddNeighbour(p: PId, q: PId)
      requires WellFormed() && p < |particles| && q < |particles|
      modifies this
      ensures WellFormed() && (old(Valid()) ==> Valid())
      ensures vertices == old(vertices)
      ensures particles == old(particles)[p := old(particles[p]).(neighbours := WithNeighbour(old(particles[p].neighbours), p, q))]
    {
      if q == p { return; }
      if q in particles[p].neighbours { return; }
      particles := particles[p := particles[p].(neighbours := particles[p].neighbours + [q])];
      if old(Valid()) {
        forall p' | 0 <= p' < |particles| ensures KnowsNeighbours(p') {
          assert old(KnowsNeighbours(p'));
        }
      }
    }

    /** `addVertex`: idempotent, throws on a third vertex, and makes every
        particle of `v` other than `p` a neighbour of `p`. */
    method AddVertex(p: PId, v: VId) returns (failure: Option<GraphError>)
      requires Valid() && p < |particles| && v < |vertices|
      modifies this
      ensures Valid()
      ensures vertices == old(vertices)
      ensures match AttachVertex(old(particles[p]), p, v, vertices[v].particles)
              case Success(r) => failure.None? && particles == old(particles)[p := r]
              case Failure(e) => failure == Some(e) && particles == old(particles)
      ensures failure.None? ==> forall q :: q in vertices[v].particles && q != p ==> q in particles[p].neighbours
    {
      if v in particles[p].vertices {
        assert KnowsNeighbours(p);
        return None;
      }
      if |particles[p].vertices| == 2 { return Some(TooManyVertices(p)); }
      ghost var r0 := particles[p];
      particles := particles[p := particles[p].(vertices := particles[p].vertices + [v])];
      assert ParticleOk(particles[p], p, |particles|, |vertices|) by {
        AttachVertexOk(r0, p, v, [], |particles|, |vertices|);
      }
      var vps := vertices[v].particles;
      AddNeighbours(p, vps);
      assert NeighboursKnown() by {
        forall p' | 0 <= p' < |particles| ensures KnowsNeighbours(p') {
          if p' != p {
            assert particles[p'] == old(particles[p']) && old(KnowsNeighbours(p'));
          } else {
            assert old(KnowsNeighbours(p));
            forall w, q | w in particles[p].vertices && w < |vertices| && q in vertices[w].particles && q != p
              ensures q in particles[p].neighbours
            {
              if w != v {
                assert w in r0.vertices && q in r0.neighbours;
              }
            }
          }
        }
      }
      return None;
    }

    /** The `forEach` of `addVertex`: `addNeighbour` on each particle of
        `vps` in turn. */
    method AddNeighbours(p: PId, vps: seq<PId>)
      requires WellFormed() && p < |particles| && AllBelow(vps, |particles|)
      modifies this
      ensures WellFormed() && vertices == old(vertices)
      ensures particles == old(particles)[p := old(particles[p]).(neighbours := WithNeighbours(old(particles[p].neighbours), p, vps))]
    {
      ghost var r0 := particles[p];
      for i := 0 to |vps|
        invariant WellFormed()
        invariant vertices == old(vertices)
        invariant particles == old(particles)[p := r0.(neighbours := WithNeighbours(r0.neighbours, p, vps[..i]))]
      {
        assert vps[..i + 1][..i] == vps[..i];
        AddNeighbour(p, vps[i]);
      }
      assert vps[..|vps|] == vps;
    }

    /** The linking loop of the `Vertex` constructor: `addVertex(v)` on
        each particle of `ps` in turn, stopping at the first one that throws. */
    method LinkEach(ps: seq<PId>, v: VId) returns (failure: Option<GraphError>)
      requires Valid() && AllBelow(ps, |particles|) && v < |vertices| && vertices[v].particles == ps
      modifies this
      ensures Valid() && vertices == old(vertices)
      ensures var r := LinkAll(old(particles), ps, v, ps);
        particles == r.store &&
        failure == if r.failedAt.None? then None else Some(TooManyVertices(ps[r.failedAt.value]))
    {
      ghost var store0 := particles;
      for i := 0 to |ps|
        invariant Valid() && vertices == old(vertices)
        invariant LinkAll(store0, ps[..i], v, ps) == Linking(particles, None)
      {
        assert ps[..i + 1][..i] == ps[..i];
        failure := AddVertex(ps[i], v);
        if failure.Some? {
          LinkAllStops(store0, ps, i + 1, v, ps);
          return;
        }
      }
      assert ps[..|ps|] == ps;
      failure := None;
    }

    /** `new Vertex(...ps)`: the vertex is stored with its particles first,
        then each particle is linked in order; if one throws, the earlier
        ones stay linked. */
    method NewVertex(ps: seq<PId>) returns (v: VId, failure: Option<GraphError>)
      requires Valid() && AllBelow(ps, |particles|)
      modifies this
      ensures Valid()
      ensures v == old(|vertices|) && vertices == old(vertices) + [VertexRec(ps, false)]
      ensures |particles| == old(|particles|)
      ensures forall q :: 0 <= q < |particles| && q !in ps ==> particles[q] == old(particles[q])
      ensures failure.None? <==> forall i :: 0 <= i < |ps| ==> |old(particles[ps[i]].vertices)| < 2
      ensures failure.None? ==> forall q :: 0 <= q < |particles| && q in ps ==>
                particles[q].vertices == old(particles[q].vertices) + [v] &&
                particles[q] == AttachVertex(old(particles[q]), q, v, ps).value
      ensures failure.Some? ==> var r := LinkAll(old(particles), ps, v, ps);
                r.failedAt.Some? && particles == r.store && failure.value == TooManyVertices(ps[r.failedAt.value])
    {
      v := |vertices|;
      LinkAllNewVertex(particles, ps, v);
      vertices := vertices + [VertexRec(ps, false)];
      assert Valid() by {
        forall w | 0 <= w < |vertices| ensures AllBelow(vertices[w].particles, |particles|) {
          if w < v { assert vertices[w] == old(vertices[w]); }
        }
        forall p | 0 <= p < |particles| ensures ParticleOk(particles[p], p, |particles|, |vertices|) {
          assert ParticleOk(particles[p], p, |particles|, |vertices| - 1);
        }
        forall p | 0 <= p < |particles| ensures KnowsNeighbours(p) {
          assert old(KnowsNeighbours(p)) && ParticleOk(particles[p], p, |particles|, v);
          assert forall w :: 0 <= w < v ==> vertices[w] == old(vertices[w]);
        }
      }
      failure := LinkEach(ps, v);
    }

    /** `new OriginVertex(p)`: a one-particle vertex, marked as origin once
        the particle is linked. */
    method NewOriginVertex(p: PId) returns (v: VId, failure: Option<GraphError>)
      requires Valid() && p < |particles|
      modifies this
      ensures Valid()
      ensures v == old(|vertices|) && vertices == old(vertices) + [VertexRec([p], failure.None?)]
      ensures failure.None? <==> |old(particles[p].vertices)| < 2
      ensures failure.None? ==> particles == old(particles)[p := AttachVertex(old(particles[p]), p, v, [p]).value]
      ensures failure.Some? ==> particles == old(particles)
    {
      v, failure := NewVertex([p]);
      assert [p][..0] == [];
      if failure.None? {
        label Linked:
        vertices := vertices[v := vertices[v].(origin := true)];
        forall p' | 0 <= p' < |particles| ensures KnowsNeighbours(p') {
          assert old@Linked(KnowsNeighbours(p'));
          assert forall w :: 0 <= w < |vertices| ==> vertices[w].particles == old@Linked(vertices[w].particles);
        }
      }
    }

    /** The `neighbours` getter of vertex `v`. */
    function Neighbours(v: VId): (r: seq<VId>)
      requires Valid() && v < |vertices|
      reads this
      ensures v !in r && NoDuplicates(r)
      ensures forall w :: w in r <==> w != v && exists q :: q in vertices[v].particles && w in particles[q].vertices
      ensures r == Firsts(Flatten(particles, vertices[v].particles), [], v)
    {
      NeighbourListSpec(particles, vertices[v].particles, v);
      NeighbourListFirsts(particles, vertices[v].particles, v);
      NeighbourList(particles, vertices[v].particles, v)
    }

    /** `particleOfNeighbour(w)` on vertex `v`: the first particle of `v`
        that also lies on `w`, if any. */
    function ParticleOfNeighbour(v: VId, w: VId): (r: Option<PId>)
      requires Valid() && v < |vertices|
      reads this
      ensures r.None? <==> forall q :: q in vertices[v].particles ==> w !in particles[q].vertices
      ensures r.Some? ==> exists k :: 0 <= k < |vertices[v].particles| && vertices[v].particles[k] == r.value &&
                            w in particles[r.value].vertices &&
                            forall i :: 0 <= i < k ==> w !in particles[vertices[v].particles[i]].vertices
    {
      var ps := vertices[v].particles;
      match FirstWith(particles, ps, w)
      case None => None
      case Some(k) => Some(ps[k])
    }
  }

  // ---------------------------------------------------------------------
  // The hand-built diagram at the end of the module
  // ---------------------------------------------------------------------

  // Arena positions of the diagram's particles, in creation order.
  const E1: PId := 0
  const E2: PId := 1
  const P1: PId := 2
  const P2: PId := 3
  const EV1: PId := 4
  const PV1: PId := 5
  const GV1: PId := 6
  const GV2: PId := 7

  /** The eight particles of the diagram, created in order on an empty
      graph: the external `e1`, `e2`, `p1`, `p2` and the internal `ev1`,
      `pv1`, `gv1`, `gv2`. */
  method FixtureParticles(g: Graph) returns (e1: PId, e2: PId, p1: PId, p2: PId, ev1: PId, pv1: PId, gv1: PId, gv2: PId)
    requires g.Valid() && g.particles == [] && g.vertices == []
    modifies g
    ensures g.Valid() && g.vertices == []
    ensures [e1, e2, p1, p2, ev1, pv1, gv1, gv2] == [E1, E2, P1, P2, EV1, PV1, GV1, GV2]
    ensures g.particles == [
      ParticleRec(Charge(Electron), [], []), ParticleRec(Charge(Electron), [], []),
      ParticleRec(Charge(Positron), [], []), ParticleRec(Charge(Positron), [], []),
      ParticleRec(Charge(Electron), [], []), ParticleRec(Charge(Positron), [], []),
      ParticleRec(Charge(Photon), [], []), ParticleRec(Charge(Photon), [], [])]
  {
    e1 := g.NewParticle(Charge(Electron));
    e2 := g.NewParticle(Charge(Electron));
    p1 := g.NewParticle(Charge(Positron));
    p2 := g.NewParticle(Charge(Positron));
    ev1 := g.NewParticle(Charge(Electron));
    pv1 := g.NewParticle(Charge(Positron));
    gv1 := g.NewParticle(Charge(Photon));
    gv2 := g.NewParticle(Charge(Photon));
  }

  /** `new Vertex(a, b, c)` while the diagram is built: each of the three
      particles still has room, so each gets the new vertex appended and
      every other particle keeps its vertices. */
  method FixtureVertex(g: Graph, a: PId, b: PId, c: PId) returns (v: VId)
    requires g.Valid() && a < |g.particles| && b < |g.particles| && c < |g.particles|
    requires a != b && a != c && b != c
    requires |g.particles[a].vertices| < 2 && |g.particles[b].vertices| < 2 && |g.particles[c].vertices| < 2
    modifies g
    ensures g.Valid() && v == old(|g.vertices|)
    ensures g.vertices == old(g.vertices) + [VertexRec([a, b, c], false)]
    ensures |g.particles| == old(|g.particles|)
    ensures g.particles[a].vertices == old(g.particles[a].vertices) + [v]
    ensures g.particles[b].vertices == old(g.particles[b].vertices) + [v]
    ensures g.particles[c].vertices == old(g.particles[c].vertices) + [v]
    ensures forall q :: 0 <= q < |g.particles| && q != a && q != b && q != c ==>
      g.particles[q].vertices == old(g.particles[q].vertices)
  {
    var failure;
    v, failure := g.NewVertex([a, b, c]);
  }

  /** `new OriginVertex(p)` while the diagram is built: `p` still has room. */
  method FixtureOrigin(g: Graph, p: PId) returns (v: VId)
    requires g.Valid() && p < |g.particles| && |g.particles[p].vertices| < 2
    modifies g
    ensures g.Valid() && v == old(|g.vertices|)
    ensures g.vertices == old(g.vertices) + [VertexRec([p], true)]
    ensures |g.particles| == old(|g.particles|)
    ensures g.particles[p].vertices == old(g.particles[p].vertices) + [v]
    ensures forall q :: 0 <= q < |g.particles| && q != p ==> g.particles[q].vertices == old(g.particles[q].vertices)
  {
    var failure;
    v, failure := g.NewOriginVertex(p);
  }

  /** `v1` and `v2`, the inner vertices on the electron line, built on
      the fresh particles. */
  method FixtureElectronLine(g: Graph) returns (v1: VId, v2: VId)
    requires g.Valid() && g.vertices == [] && |g.particles| == 8
    requires forall q :: 0 <= q < 8 ==> g.particles[q].vertices == []
    modifies g
    ensures g.Valid() && |g.particles| == 8 && [v1, v2] == [0, 1]
    ensures g.vertices == [VertexRec([E1, EV1, GV1], false), VertexRec([EV1, E2, GV2], false)]
    ensures g.particles[E1].vertices == [v1] && g.particles[E2].vertices == [v2]
    ensures g.particles[EV1].vertices == [v1, v2]
    ensures g.particles[GV1].vertices == [v1] && g.particles[GV2].vertices == [v2]
    ensures g.particles[P1].vertices == [] && g.particles[P2].vertices == [] && g.particles[PV1].vertices == []
  {
    v1 := FixtureVertex(g, E1, EV1, GV1);
    assert g.particles[E2].vertices == [] && g.particles[GV2].vertices == [] && g.particles[EV1].vertices == [v1];
    assert g.particles[P1].vertices == [] && g.particles[P2].vertices == [] && g.particles[PV1].vertices == [];
    v2 := FixtureVertex(g, EV1, E2, GV2);
  }

  /** `v3` and `v4`, the inner vertices on the positron line, which close
      the photon lines `gv1` and `gv2`. */
  method FixturePositronLine(g: Graph) returns (v3: VId, v4: VId)
    requires g.Valid() && |g.vertices| == 2 && |g.particles| == 8
    requires g.particles[GV1].vertices == [0] && g.particles[GV2].vertices == [1]
    requires g.particles[P1].vertices == [] && g.particles[P2].vertices == [] && g.particles[PV1].vertices == []
    modifies g
    ensures g.Valid() && |g.particles| == 8 && [v3, v4] == [2, 3]
    ensures g.vertices == old(g.vertices) + [VertexRec([P1, GV1, PV1], false), VertexRec([PV1, GV2, P2], false)]
    ensures g.particles[P1].vertices == [v3] && g.particles[P2].vertices == [v4]
    ensures g.particles[PV1].vertices == [v3, v4]
    ensures g.particles[GV1].vertices == [0, v3] && g.particles[GV2].vertices == [1, v4]
    ensures g.particles[E1].vertices == old(g.particles[E1].vertices) && g.particles[E2].vertices == old(g.particles[E2].vertices)
    ensures g.particles[EV1].vertices == old(g.particles[EV1].vertices)
  {
    v3 := FixtureVertex(g, P1, GV1, PV1);
    v4 := FixtureVertex(g, PV1, GV2, P2);
  }

  /** `ov1` to `ov4`, the origin vertices of the four external particles. */
  method FixtureOrigins(g: Graph) returns (ov1: VId, ov2: VId, ov3: VId, ov4: VId)
    requires g.Valid() && |g.vertices| == 4 && |g.particles| == 8
    requires g.particles[E1].vertices == [0] && g.particles[E2].vertices == [1]
    requires g.particles[P1].vertices == [2] && g.particles[P2].vertices == [3]
    modifies g
    ensures g.Valid() && |g.particles| == 8 && [ov1, ov2, ov3, ov4] == [4, 5, 6, 7]
    ensures g.vertices == old(g.vertices) + [VertexRec([E1], true), VertexRec([E2], true),
                                             VertexRec([P1], true), VertexRec([P2], true)]
    ensures g.particles[E1].vertices == [0, ov1] && g.particles[E2].vertices == [1, ov2]
    ensures g.particles[P1].vertices == [2, ov3] && g.particles[P2].vertices == [3, ov4]
    ensures g.particles[EV1].vertices == old(g.particles[EV1].vertices)
    ensures g.particles[PV1].vertices == old(g.particles[PV1].vertices)
    ensures g.particles[GV1].vertices == old(g.particles[GV1].vertices)
    ensures g.particles[GV2].vertices == old(g.particles[GV2].vertices)
  {
    ov1 := FixtureOrigin(g, E1);
    ov2 := FixtureOrigin(g, E2);
    ov3 := FixtureOrigin(g, P1);
    ov4 := FixtureOrigin(g, P2);
  }

  /** The graph of the hand-built diagram, entry by entry: each particle
      lies on exactly two vertices, and the origin vertices follow the
      four inner ones. */
  method FixtureGraph() returns (g: Graph)
    ensures g.Valid() && |g.particles| == 8
    ensures g.particles[E1].vertices == [0, 4] && g.particles[E2].vertices == [1, 5]
    ensures g.particles[P1].vertices == [2, 6] && g.particles[P2].vertices == [3, 7]
    ensures g.particles[EV1].vertices == [0, 1] && g.particles[PV1].vertices == [2, 3]
    ensures g.particles[GV1].vertices == [0, 2] && g.particles[GV2].vertices == [1, 3]
    ensures g.vertices == [VertexRec([E1, EV1, GV1], false), VertexRec([EV1, E2, GV2], false),
                           VertexRec([P1, GV1, PV1], false), VertexRec([PV1, GV2, P2], false),
                           VertexRec([E1], true), VertexRec([E2], true), VertexRec([P1], true), VertexRec([P2], true)]
  {
    g := new Graph();
    var e1, e2, p1, p2, ev1, pv1, gv1, gv2 := FixtureParticles(g);
    var v1, v2 := FixtureElectronLine(g);
    var v3, v4 := FixturePositronLine(g);
    var ov1, ov2, ov3, ov4 := FixtureOrigins(g);
  }

  /** The hand-built, fully linked diagram at the end of `src/feynman.js`:
      eight particles, four inner vertices and four origin vertices. */
  method Fixture() returns (g: Graph, allParticles: seq<PId>, allVertices: seq<VId>)
    ensures g.Valid()
    ensures |g.particles| == |allParticles| == 8 && AllBelow(allParticles, 8)
    ensures forall p :: 0 <= p < 8 ==> p in allParticles
    ensures forall i :: 0 <= i < |allParticles| ==> |g.particles[allParticles[i]].vertices| == 2
    ensures |g.vertices| == |allVertices| == 8 && AllBelow(allVertices, 8)
    ensures forall w :: 0 <= w < 8 ==> w in allVertices
    ensures forall i :: 0 <= i < 8 ==> g.vertices[allVertices[i]].origin == (i < 4)
    ensures g.Neighbours(allVertices[4]) == [allVertices[0], allVertices[5], allVertices[6]]
  {
    g := FixtureGraph();
    var e1, e2, p1, p2, ev1, pv1, gv1, gv2 := E1, E2, P1, P2, EV1, PV1, GV1, GV2;
    var v1, v2, v3, v4, ov1, ov2, ov3, ov4 := 0, 1, 2, 3, 4, 5, 6, 7;

    var inputs := [e1, p1];
    var outputs := [e2, p2];
    var virtuals := [ev1, pv1, gv1, gv2];
    var incomingVertices := [ov1, ov3];
    var outgoingVertices := [ov2, ov4];
    var originVertices := incomingVertices + outgoingVertices;
    var innerVertices := [v1, v2, v3, v4];
    allParticles := inputs + outputs + virtuals;
    allVertices := originVertices + innerVertices;
    assert allParticles == [0, 2, 1, 3, 4, 5, 6, 7];
    assert allVertices == [4, 6, 5, 7, 0, 1, 2, 3];
    FixtureNeighbours(g.particles, e1, ev1, gv1, v1, ov1, v2, v3);
  }

  /** `v1.neighbours` in the diagram: the origin vertex of `e1`, then `v2`
      through `ev1`, then `v3` through `gv1`. */
  lemma FixtureNeighbours(store: seq<ParticleRec>, e1: PId, ev1: PId, gv1: PId, v1: VId, ov1: VId, v2: VId, v3: VId)
    requires e1 < |store| && ev1 < |store| && gv1 < |store|
    requires store[e1].vertices == [v1, ov1] && store[ev1].vertices == [v1, v2] && store[gv1].vertices == [v1, v3]
    requires v1 != ov1 && v1 != v2 && v1 != v3 && ov1 != v2 && ov1 != v3 && v2 != v3
    ensures AllBelow([e1, ev1, gv1], |store|)
    ensures NeighbourList(store, [e1, ev1, gv1], v1) == [ov1, v2, v3]
  {
    var l0: seq<PId> := [];
    var l1 := l0 + [e1];
    var l2 := l1 + [ev1];
    NeighbourListPair(store, l0, e1, v1, ov1);
    assert NeighbourList(store, l1, v1) == [ov1];
    NeighbourListPair(store, l1, ev1, v1, v2);
    NeighbourListPair(store, l2, gv1, v1, v3);
    assert l2 + [gv1] == [e1, ev1, gv1];
  }

  /** One more particle with two vertices, `self` and `w`, at the end of the
      `reduce`: `w` is appended unless already listed. */
  lemma NeighbourListPair(store: seq<ParticleRec>, ps: seq<PId>, q: PId, self: VId, w: VId)
    requires AllBelow(ps, |store|) && q < |store| && store[q].vertices == [self, w]
    requires w != self && w !in NeighbourList(store, ps, self)
    ensures AllBelow(ps + [q], |store|)
    ensures NeighbourList(store, ps + [q], self) == NeighbourList(store, ps, self) + [w]
  {
    NeighbourListSnoc(store, ps, q, self);
    NewVerticesOfPair(self, w, NeighbourList(store, ps, self), self);
  }

  /** One more particle at the end of the `reduce`. */
  lemma NeighbourListSnoc(store: seq<ParticleRec>, ps: seq<PId>, q: PId, self: VId)
    requires AllBelow(ps, |store|) && q < |store|
    ensures AllBelow(ps + [q], |store|)
    ensures NeighbourList(store, ps + [q], self) ==
      NeighbourList(store, ps, self) + NewVertices(store[q].vertices, NeighbourList(store, ps, self), self)
  {
    assert (ps + [q])[..|ps|] == ps;
  }

  /** The filter of the `neighbours` getter on a particle with two vertices. */
  lemma NewVerticesOfPair(a: VId, b: VId, seen: seq<VId>, self: VId)
    ensures NewVertices([a, b], seen, self) ==
      (if a !in seen && a != self then [a] else []) + (if b !in seen && b != self then [b] else [])
  {
    var tail := [b];
    assert [a, b][0] == a && [a, b][1..] == tail;
    assert tail[0] == b && tail[1..] == [];
    assert NewVertices(tail, seen, self) == (if b !in seen && b != self then [b] else []) + NewVertices([], seen, self);
  }
}
