/** Array helpers the JavaScript code uses through `includes`, `filter` and
    `find`, stated on sequences. */
module Sequences {
  /** No element occurs twice. */
  predicate NoDuplicates<T(==)>(s: seq<T>)
  {
    forall i, j :: 0 <= i < j < |s| ==> s[i] != s[j]
  }

  /** Every id in `s` is below `n`, i.e. refers to an existing entry. */
  predicate AllBelow(s: seq<nat>, n: nat)
  {
    forall i :: 0 <= i < |s| ==> s[i] < n
  }

  /** `s.filter(y => y !== x)`: every occurrence of `x` dropped. */
  function Without<T(==,!new)>(s: seq<T>, x: T): (r: seq<T>)
    ensures x !in r
    ensures forall y :: y in r <==> y in s && y != x
    ensures multiset(r) == multiset(s)[x := 0]
    ensures x !in s ==> r == s
  {
    if s == [] then []
    else
      assert s == [s[0]] + s[1..];
      (if s[0] == x then [] else [s[0]]) + Without(s[1..], x)
  }

  /** Dropping `x` works piecewise, so the elements that remain keep their
      relative order. */
  lemma {:induction false} WithoutConcat<T(!new)>(a: seq<T>, b: seq<T>, x: T)
    ensures Without(a + b, x) == Without(a, x) + Without(b, x)
  {
    if a == [] {
      assert a + b == b;
    } else {
      assert (a + b)[0] == a[0];
      assert (a + b)[1..] == a[1..] + b;
      WithoutConcat(a[1..], b, x);
    }
  }

  /** Dropping an element from a duplicate-free sequence leaves it duplicate-free. */
  lemma {:induction false} WithoutNoDuplicates<T(!new)>(s: seq<T>, x: T)
    requires NoDuplicates(s)
    ensures NoDuplicates(Without(s, x))
  {
    if s != [] {
      WithoutNoDuplicates(s[1..], x);
      var rest := Without(s[1..], x);
      var r := Without(s, x);
      assert s[0] !in s[1..] by {
        forall j | 0 <= j < |s[1..]| ensures s[1..][j] != s[0] {
          assert s[1..][j] == s[j + 1];
        }
      }
      if s[0] != x {
        assert r == [s[0]] + rest;
        forall i, j | 0 <= i < j < |r| ensures r[i] != r[j] {
          if i == 0 {
            assert r[j] == rest[j - 1];
            assert r[j] in rest;
          } else {
            assert r[i] == rest[i - 1] && r[j] == rest[j - 1];
          }
        }
      }
    }
  }

  /** Joining two duplicate-free sequences with no element in common
      gives a duplicate-free sequence. */
  lemma ConcatNoDuplicates<T>(a: seq<T>, b: seq<T>)
    requires NoDuplicates(a) && NoDuplicates(b)
    requires forall j :: 0 <= j < |b| ==> b[j] !in a
    ensures NoDuplicates(a + b)
  {
    var r := a + b;
    forall i, j | 0 <= i < j < |r| ensures r[i] != r[j] {
      if j >= |a| && i < |a| {
        assert r[j] == b[j - |a|] && r[i] == a[i];
      } else if i >= |a| {
        assert r[i] == b[i - |a|] && r[j] == b[j - |a|];
      }
    }
  }

  /** The ids `lo, lo + 1, ..., hi - 1`. */
  function Range(lo: nat, hi: nat): (r: seq<nat>)
    requires lo <= hi
    ensures |r| == hi - lo
    ensures forall i :: 0 <= i < |r| ==> r[i] == lo + i
  {
    if lo == hi then [] else Range(lo, hi - 1) + [hi - 1]
  }

  /** A prefix one element longer is the prefix with that element added. */
  lemma PrefixSnoc<T>(s: seq<T>, i: nat)
    requires i < |s|
    ensures s[..i + 1] == s[..i] + [s[i]]
  {
  }

  lemma ConcatAssoc<T>(a: seq<T>, b: seq<T>, c: seq<T>)
    ensures a + (b + c) == (a + b) + c
  {
  }

  /** The members of `Range(lo, hi)` are exactly `lo <= x < hi`. */
  lemma RangeMembers(lo: nat, hi: nat)
    requires lo <= hi
    ensures forall x :: x in Range(lo, hi) <==> lo <= x < hi
  {
    forall x | lo <= x < hi ensures x in Range(lo, hi) {
      assert Range(lo, hi)[x - lo] == x;
    }
  }

  lemma RangeConcat(lo: nat, mid: nat, hi: nat)
    requires lo <= mid <= hi
    ensures Range(lo, mid) + Range(mid, hi) == Range(lo, hi)
  {
  }

  /** `s.filter(y => !xs.includes(y))`: the elements of `s` outside `xs`,
      in their order. */
  function Outside<T(==,!new)>(s: seq<T>, xs: seq<T>): (r: seq<T>)
    ensures forall y :: y in r <==> y in s && y !in xs
  {
    if s == [] then []
    else
      assert s == [s[0]] + s[1..];
      (if s[0] in xs then [] else [s[0]]) + Outside(s[1..], xs)
  }

  /** Dropping one more element is `Without` on what was left. */
  lemma {:induction false} OutsideSnoc<T(!new)>(s: seq<T>, xs: seq<T>, x: T)
    ensures Outside(s, xs + [x]) == Without(Outside(s, xs), x)
  {
    if s != [] {
      OutsideSnoc(s[1..], xs, x);
      var head := if s[0] in xs then [] else [s[0]];
      WithoutConcat(head, Outside(s[1..], xs), x);
    }
  }

  /** Dropping works piecewise on a concatenation. */
  lemma {:induction false} OutsideConcat<T(!new)>(a: seq<T>, b: seq<T>, xs: seq<T>)
    ensures Outside(a + b, xs) == Outside(a, xs) + Outside(b, xs)
  {
    if a == [] {
      assert a + b == b;
    } else {
      assert (a + b)[0] == a[0];
      assert (a + b)[1..] == a[1..] + b;
      OutsideConcat(a[1..], b, xs);
    }
  }

  /** Dropping nothing that occurs leaves the sequence as it is. */
  lemma {:induction false} OutsideDisjoint<T(!new)>(s: seq<T>, xs: seq<T>)
    requires forall y :: y in s ==> y !in xs
    ensures Outside(s, xs) == s
  {
    if s != [] {
      assert s == [s[0]] + s[1..];
      OutsideDisjoint(s[1..], xs);
    }
  }

  /** Dropping `xs` and then `ys` drops `ys + xs`. */
  lemma {:induction false} OutsideTwice<T(!new)>(s: seq<T>, xs: seq<T>, ys: seq<T>)
    ensures Outside(Outside(s, xs), ys) == Outside(s, ys + xs)
  {
    if s != [] {
      OutsideTwice(s[1..], xs, ys);
      var head := if s[0] in xs then [] else [s[0]];
      OutsideConcat(head, Outside(s[1..], xs), ys);
    }
  }
}
