/** Listings in increasing order of id. */
module Ordering {
  import opened Basics

  lemma MaxExists(s: set<nat>)
    requires s != {}
    ensures exists m :: m in s && forall x :: x in s ==> x <= m
  {
    var m :| m in s;
    if s != {m} {
      MaxExists(s - {m});
      var k :| k in s - {m} && forall x :: x in s - {m} ==> x <= k;
      assert forall x :: x in s ==> x == m || x in s - {m};
      assert (if k < m then m else k) in s;
    }
  }

  /** The members of a set in increasing order. */
  ghost function Sorted(s: set<nat>): seq<nat> {
    if s == {} then []
    else
      var m := MaxOf(s);
      Sorted(s - {m}) + [m]
  }

  ghost function MaxOf(s: set<nat>): (m: nat)
    requires s != {}
    ensures m in s && forall x :: x in s ==> x <= m
  {
    MaxExists(s);
    var m :| m in s && forall x :: x in s ==> x <= m;
    m
  }

  lemma {:induction false} SortedLists(s: set<nat>)
    ensures forall x :: x in Sorted(s) <==> x in s
    ensures forall i, j :: 0 <= i < j < |Sorted(s)| ==> Sorted(s)[i] < Sorted(s)[j]
  {
    if s != {} {
      var m := MaxOf(s);
      SortedLists(s - {m});
      forall i, j | 0 <= i < j < |Sorted(s)| ensures Sorted(s)[i] < Sorted(s)[j] {
        assert Sorted(s)[i] in Sorted(s - {m});
      }
    }
  }

  lemma {:induction false} SortedSize(s: set<nat>)
    ensures |Sorted(s)| == |s|
  {
    if s != {} { SortedSize(s - {MaxOf(s)}); }
  }

  lemma LeastFirst(s: set<nat>)
    requires s != {}
    ensures |Sorted(s)| > 0 && forall x :: x in s ==> Sorted(s)[0] <= x
  {
    SortedLists(s);
    forall x | x in s ensures |Sorted(s)| > 0 && Sorted(s)[0] <= x {
      assert x in Sorted(s);
      var k :| 0 <= k < |Sorted(s)| && Sorted(s)[k] == x;
    }
  }

  predicate Increasing(xs: seq<nat>) { forall i, j :: 0 <= i < j < |xs| ==> xs[i] < xs[j] }

  /** Only one increasing listing has the given members. */
  lemma {:induction false} SortedUnique(xs: seq<nat>, s: set<nat>)
    requires Increasing(xs) && forall x :: x in xs <==> x in s
    ensures xs == Sorted(s)
  {
    if |xs| == 0 {
      assert forall x :: x in s ==> x in xs;
      assert s == {};
    } else {
      var last := xs[|xs| - 1];
      var init := xs[..|xs| - 1];
      assert last in xs;
      assert xs == init + [last];
      assert MaxOf(s) == last by { assert MaxOf(s) in xs; }
      forall x ensures x in init <==> x in s - {last} {
        if x in init { assert x in xs; }
      }
      SortedUnique(init, s - {last});
    }
  }

  function Below(s: set<nat>, x: nat): set<nat> { set y | y in s && y < x }

  /** A member's place in the listing is the number of lesser members. */
  lemma SortedPlace(s: set<nat>, k: nat)
    requires k < |Sorted(s)|
    ensures |Below(s, Sorted(s)[k])| == k
  {
    var listing := Sorted(s);
    SortedLists(s);
    assert listing[k] in listing;
    forall y ensures y in listing[..k] <==> y in Below(s, listing[k]) {
      if y in Below(s, listing[k]) {
        assert y in listing;
        var i :| 0 <= i < |listing| && listing[i] == y;
        assert i < k && listing[..k][i] == y;
      }
      if y in listing[..k] {
        var i :| 0 <= i < k && listing[..k][i] == y;
        assert listing[i] in listing;
      }
    }
    SortedUnique(listing[..k], Below(s, listing[k]));
    SortedSize(Below(s, listing[k]));
  }

  /** The ids behind a cursor. */
  function Beyond(ids: set<Id>, cursor: Option<Id>): set<Id> {
    set id | id in ids && (cursor.None? || id > cursor.value)
  }

  /** Behind the last object of a page lies exactly the rest of the listing, though visited objects may
      be gone. */
  lemma RestOfListing(before: set<Id>, after: set<Id>, cursor: Option<Id>, n: nat)
    requires var listing := Sorted(Beyond(before, cursor));
             && 0 < n <= |listing| && after <= before
             && forall ref :: ref in before && ref !in listing[..n] ==> ref in after
    ensures Sorted(Beyond(after, Some(Sorted(Beyond(before, cursor))[n - 1]))) == Sorted(Beyond(before, cursor))[n..]
  {
    var listing := Sorted(Beyond(before, cursor));
    SortedLists(Beyond(before, cursor));
    var last := listing[n - 1];
    assert last in listing;
    forall ref ensures ref in listing[n..] <==> ref in Beyond(after, Some(last)) {
      if ref in listing[n..] {
        var i :| n <= i < |listing| && listing[i] == ref;
        assert ref in listing;
      }
      if ref in Beyond(after, Some(last)) {
        assert ref in listing;
        var i :| 0 <= i < |listing| && listing[i] == ref;
        assert n <= i;
        assert ref == listing[n..][i - n];
      }
    }
    SortedUnique(listing[n..], Beyond(after, Some(last)));
  }

  /** `order by id`. */
  method OrderById(ids: set<nat>) returns (listing: seq<nat>)
    ensures listing == Sorted(ids)
  {
    var rest := ids;
    listing := [];
    while rest != {}
      invariant Sorted(ids) == Sorted(rest) + listing
      decreases |rest|
    {
      MaxExists(rest);
      var m :| m in rest && forall x :: x in rest ==> x <= m;
      assert m == MaxOf(rest);
      rest := rest - {m};
      listing := [m] + listing;
    }
  }
}
