/**
  Keys of a map ordered by (value, key). A Redis sorted set lists its members this way
  (score, then member), and the two sorted SQL reads of the service are the same ordering of
  row keys by a column.
 */
module Ranking {

  predicate Before(m: map<nat, int>, x: nat, y: nat)
    requires x in m && y in m
  {
    m[x] < m[y] || (m[x] == m[y] && x < y)
  }

  predicate IsFirst(m: map<nat, int>, x: nat)
    requires x in m
  {
    forall y :: y in m && y != x ==> Before(m, x, y)
  }

  ghost predicate Ordered(m: map<nat, int>, s: seq<nat>) {
    && (forall i :: 0 <= i < |s| ==> s[i] in m)
    && (forall i, j :: 0 <= i < j < |s| ==> Before(m, s[i], s[j]))
  }

  /** `s` lists every key of `m` once, smallest (value, key) first. */
  ghost predicate Ranks(m: map<nat, int>, s: seq<nat>) {
    && Ordered(m, s)
    && (forall x :: x in m <==> x in s)
  }

  lemma {:induction false} FirstExists(m: map<nat, int>) returns (x: nat)
    requires m != map[]
    ensures x in m && IsFirst(m, x)
    decreases |m|
  {
    x :| x in m;
    var rest := m - {x};
    if rest != map[] {
      assert |rest.Keys| < |m.Keys| by {
        assert rest.Keys == m.Keys - {x};
      }
      var y := FirstExists(rest);
      if Before(m, y, x) {
        assert forall z :: z in m && z != y && z != x ==> z in rest && Before(rest, y, z);
        x := y;
      } else {
        assert forall z :: z in m && z != x ==> z in rest && (z == y || Before(rest, y, z));
      }
    } else {
      assert forall z :: z in m && z != x ==> z in rest;
    }
  }

  function First(m: map<nat, int>): (x: nat)
    requires m != map[]
    ensures x in m && IsFirst(m, x)
  {
    assert exists x :: x in m && IsFirst(m, x) by {
      var x := FirstExists(m);
    }
    var x :| x in m && IsFirst(m, x);
    x
  }

  function Ranked(m: map<nat, int>): (s: seq<nat>)
    ensures Ranks(m, s)
    decreases |m|
  {
    if m == map[] then
      []
    else
      var x := First(m);
      assert (m - {x}).Keys == m.Keys - {x};
      [x] + Ranked(m - {x})
  }

  lemma {:induction false} RankedLength(m: map<nat, int>)
    ensures |Ranked(m)| == |m|
    decreases |m|
  {
    if m != map[] {
      var rest := m - {First(m)};
      assert rest.Keys == m.Keys - {First(m)};
      RankedLength(rest);
    }
  }

  /** `Ranks` has exactly one solution, so a list with these properties is the list the server returns. */
  lemma {:induction false} RankedIsUnique(m: map<nat, int>, s: seq<nat>)
    requires Ranks(m, s)
    ensures s == Ranked(m)
    decreases |s|
  {
    if s == [] {
      assert m == map[];
    } else {
      assert s[0] in s;
      var x := First(m);
      assert x in s;
      assert s[0] == x;
      RanksTail(m, s);
      RankedIsUnique(m - {x}, s[1..]);
    }
  }

  lemma RanksTail(m: map<nat, int>, s: seq<nat>)
    requires Ranks(m, s) && s != []
    ensures Ranks(m - {s[0]}, s[1..])
  {
  }

  /** Taking one key out leaves the others in their old order. */
  lemma RankedWithout(m: map<nat, int>, i: nat)
    requires i < |Ranked(m)|
    ensures Ranked(m - {Ranked(m)[i]}) == Ranked(m)[..i] + Ranked(m)[i + 1..]
  {
    var s := Ranked(m);
    RanksWithout(m, s, i);
    RankedIsUnique(m - {s[i]}, s[..i] + s[i + 1..]);
  }

  lemma RanksWithout(m: map<nat, int>, s: seq<nat>, i: nat)
    requires Ranks(m, s) && i < |s|
    ensures Ranks(m - {s[i]}, s[..i] + s[i + 1..])
  {
  }
}
