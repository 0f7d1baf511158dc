// The airline: an ordered, mutable list of planes with guarded insertion,
// a summed takeoff weight and a reorder by takeoff weight.

module Airlines {
  import opened Planes

  /** Sum of the current takeoff weights of `s`, accumulated front to back. */
  function TotalOf(s: seq<Plane>): (t: real)
    reads s
  {
    if s == [] then 0.0 else TotalOf(s[..|s| - 1]) + s[|s| - 1].TakeoffWeight()
  }

  /** Takeoff weights do not decrease along `s`. */
  predicate SortedByWeight(s: seq<Plane>)
    reads s
  {
    forall i, j :: 0 <= i < j < |s| ==> s[i].TakeoffWeight() <= s[j].TakeoffWeight()
  }

  /** What `Add` checks: a non-null plane with a type other than `None` and a
      non-null, non-empty number. */
  predicate Admits(p: Plane?)
    reads p
  {
    p != null && p.planeType != None && p.number.NonNull? && |p.number.value| > 0
  }

  /** Every plane of `s` passes the checks of `Add`. */
  predicate AllAdmitted(s: seq<Plane>)
    reads s
  {
    forall i :: 0 <= i < |s| ==> Admits(s[i])
  }

  /** Admission is a property of each plane, so reordering keeps it. */
  lemma PermutationKeepsAdmitted(a: seq<Plane>, b: seq<Plane>)
    requires multiset(a) == multiset(b) && AllAdmitted(a)
    ensures AllAdmitted(b)
  {
    forall i | 0 <= i < |b| ensures Admits(b[i]) {
      assert b[i] in multiset(b);
      assert b[i] in a;
    }
  }

  lemma {:induction false} TotalOfConcat(a: seq<Plane>, b: seq<Plane>)
    ensures TotalOf(a + b) == TotalOf(a) + TotalOf(b)
    decreases |b|
  {
    if b != [] {
      assert (a + b)[..|a + b| - 1] == a + b[..|b| - 1];
      TotalOfConcat(a, b[..|b| - 1]);
    } else {
      assert a + b == a;
    }
  }

  /** Adding a plane at the end adds its takeoff weight to the total. */
  lemma TotalOfAppend(s: seq<Plane>, p: Plane)
    ensures TotalOf(s + [p]) == TotalOf(s) + p.TakeoffWeight()
  {
    assert (s + [p])[..|s|] == s;
  }

  /** Taking the plane at index `j` out of `s` takes its weight off the total. */
  lemma {:induction false} TotalOfRemove(s: seq<Plane>, j: nat)
    requires j < |s|
    ensures TotalOf(s) == TotalOf(s[..j] + s[j + 1..]) + s[j].TakeoffWeight()
  {
    assert s[..j] + s[j..] == s;
    assert [s[j]] + s[j + 1..] == s[j..];
    TotalOfConcat(s[..j], s[j..]);
    TotalOfConcat([s[j]], s[j + 1..]);
    TotalOfConcat(s[..j], s[j + 1..]);
    assert TotalOf([s[j]]) == s[j].TakeoffWeight() by { assert [s[j]][..0] == []; }
  }

  lemma MultisetRemove(s: seq<Plane>, j: nat)
    requires j < |s|
    ensures multiset(s[..j] + s[j + 1..]) == multiset(s) - multiset{s[j]}
  {
    assert s == s[..j] + [s[j]] + s[j + 1..];
  }

  /** The total depends only on which planes are present, not on their order. */
  lemma {:induction false} TotalOfPermutation(a: seq<Plane>, b: seq<Plane>)
    requires multiset(a) == multiset(b)
    ensures TotalOf(a) == TotalOf(b)
    decreases |a|
  {
    if a == [] {
      assert |b| == |multiset(b)| == 0;
    } else {
      var n := |a| - 1;
      var x := a[n];
      assert a == a[..n] + [x];
      assert x in multiset(b);
      var j :| 0 <= j < |b| && b[j] == x;
      var rest := b[..j] + b[j + 1..];
      MultisetRemove(b, j);
      assert multiset(a[..n]) == multiset(a) - multiset{x};
      TotalOfPermutation(a[..n], rest);
      TotalOfRemove(b, j);
    }
  }

  /** With every plane consistent and every payload non-negative, the total is at
      least zero. */
  lemma {:induction false} TotalOfNonNegative(s: seq<Plane>)
    requires forall i :: 0 <= i < |s| ==> s[i].Valid() && s[i].payload.NonNegative()
    ensures TotalOf(s) >= 0.0
    decreases |s|
  {
    if s != [] {
      TotalOfNonNegative(s[..|s| - 1]);
      assert s[|s| - 1].TakeoffWeight() >= 0.0;
    }
  }

  /** What a reordering keeps: the total and admission of every plane. */
  lemma ReorderKeeps(a: seq<Plane>, b: seq<Plane>)
    requires multiset(a) == multiset(b)
    ensures TotalOf(b) == TotalOf(a)
    ensures AllAdmitted(a) ==> AllAdmitted(b)
  {
    TotalOfPermutation(a, b);
    if AllAdmitted(a) {
      PermutationKeepsAdmitted(a, b);
    }
  }

  /** Putting `p` at a position where everything before is no heavier and everything
      after is no lighter keeps a sorted sequence sorted. */
  lemma InsertKeepsSorted(s: seq<Plane>, p: Plane, k: nat)
    requires SortedByWeight(s) && k <= |s|
    requires forall m :: 0 <= m < k ==> s[m].TakeoffWeight() <= p.TakeoffWeight()
    requires forall m :: k <= m < |s| ==> p.TakeoffWeight() <= s[m].TakeoffWeight()
    ensures SortedByWeight(s[..k] + [p] + s[k..])
  {
  }

  lemma MultisetInsert(s: seq<Plane>, p: Plane, k: nat)
    requires k <= |s|
    ensures multiset(s[..k] + [p] + s[k..]) == multiset(s) + multiset{p}
  {
    assert s[..k] + s[k..] == s;
  }

  /** Places `p` after every plane of `s` that is no heavier, keeping `s` sorted. */
  method InsertByWeight(s: seq<Plane>, p: Plane) returns (r: seq<Plane>)
    requires SortedByWeight(s)
    ensures SortedByWeight(r)
    ensures multiset(r) == multiset(s) + multiset{p}
  {
    var w := p.TakeoffWeight();
    var k := 0;
    while k < |s| && s[k].TakeoffWeight() <= w
      invariant 0 <= k <= |s|
      invariant forall m :: 0 <= m < k ==> s[m].TakeoffWeight() <= w
    {
      k := k + 1;
    }
    forall m | k <= m < |s|
      ensures w <= s[m].TakeoffWeight()
    {
      assert s[k].TakeoffWeight() <= s[m].TakeoffWeight();
    }
    InsertKeepsSorted(s, p, k);
    MultisetInsert(s, p, k);
    r := s[..k] + [p] + s[k..];
  }

  /** Reorders `s` ascending by takeoff weight; planes of equal weight may end up in
      either order. */
  method SortByWeightOf(s: seq<Plane>) returns (r: seq<Plane>)
    ensures SortedByWeight(r)
    ensures multiset(r) == multiset(s)
  {
    r := [];
    var i := 0;
    while i < |s|
      invariant 0 <= i <= |s|
      invariant SortedByWeight(r)
      invariant multiset(r) == multiset(s[..i])
    {
      assert s[..i + 1] == s[..i] + [s[i]];
      r := InsertByWeight(r, s[i]);
      i := i + 1;
    }
    assert s[..i] == s;
  }

  class Airline {
    var planes: seq<Plane>

    constructor ()
      ensures planes == []
    {
      planes := [];
    }

    /** The last step of loading from XML or JSON: the decoded list is adopted as it
        is, in order and without the checks of `Add`; a null list gives an empty fleet. */
    constructor FromDecoded(decoded: Nullable<seq<Plane>>)
      ensures planes == if decoded.Null? then [] else decoded.value
    {
      planes := [];
      if decoded.NonNull? {
        planes := planes + decoded.value;
      }
    }

    /** The current list itself, in its current order. */
    function GetPlanes(): (r: seq<Plane>)
      reads this
      ensures r == planes
    {
      planes
    }

    /** Sum of the takeoff weights of the fleet, in list order. */
    method TotalWeight() returns (weight: real)
      ensures weight == TotalOf(planes)
      ensures planes == [] ==> weight == 0.0
    {
      weight := 0.0;
      var i := 0;
      while i < |planes|
        invariant 0 <= i <= |planes|
        invariant weight == TotalOf(planes[..i])
      {
        assert planes[..i + 1][..i] == planes[..i];
        weight := weight + planes[i].TakeoffWeight();
        i := i + 1;
      }
      assert planes[..i] == planes;
    }

    /** Refuses a plane that fails the checks, leaving the fleet unchanged;
        otherwise appends it at the end. */
    method Add(plane: Plane?) returns (r: Outcome)
      modifies this
      ensures r.Ok? <==> Admits(plane)
      ensures r.Fail? ==> r.error == InvalidArgument && planes == old(planes)
      ensures r.Ok? ==> planes == old(planes) + [plane]
      ensures old(AllAdmitted(planes)) ==> AllAdmitted(planes)
    {
      if plane == null || plane.planeType == None || plane.number.Null? || |plane.number.value| == 0 {
        return Fail(InvalidArgument);
      }
      planes := planes + [plane];
      r := Ok;
    }

    /** Orders the fleet ascending by takeoff weight, keeping the same planes. */
    method SortByWeight()
      modifies this
      ensures multiset(planes) == multiset(old(planes))
      ensures SortedByWeight(planes)
      ensures TotalOf(planes) == old(TotalOf(planes))
      ensures old(AllAdmitted(planes)) ==> AllAdmitted(planes)
    {
      var sorted := SortByWeightOf(planes);
      ReorderKeeps(planes, sorted);
      planes := sorted;
    }
  }
}
