/**
 The Locations known to hold no Object, as merged inclusive ranges.

 The ranges are held in ascending order of their start. They are canonical: in order,
 disjoint, and with at least one Location between two of them, so two canonical lists
 that describe the same Locations are the same list.
 */
module AbsentRanges {
  import opened Locations

  datatype Range = Range(from: Location, to: Location) {
    predicate Has(location: Location) {
      from.AtMost(location) && location.AtMost(to)
    }
  }

  /** At most this many separate ranges are remembered. */
  const MAX_ABSENT_RANGES := 65_536

  ghost predicate Canonical(ranges: seq<Range>) {
    && (forall i :: 0 <= i < |ranges| ==> ranges[i].from.AtMost(ranges[i].to))
    && (forall i, j :: 0 <= i < j < |ranges| ==> !Reaches(ranges[i].to, ranges[j].from))
  }

  ghost predicate Denotes(ranges: seq<Range>, location: Location) {
    exists i :: 0 <= i < |ranges| && ranges[i].Has(location)
  }

  /** `merged` is the canonical list of what `ranges` and `from..=to` hold between them. */
  ghost predicate IsUnion(merged: seq<Range>, ranges: seq<Range>, from: Location, to: Location) {
    && Canonical(merged)
    && forall l: Location :: Denotes(merged, l) <==> Denotes(ranges, l) || Range(from, to).Has(l)
  }

  /** What the cap leaves of a list: its highest ranges. */
  function Newest(ranges: seq<Range>): (r: seq<Range>) {
    if |ranges| > MAX_ABSENT_RANGES then ranges[|ranges| - MAX_ABSENT_RANGES..] else ranges
  }

  /** How many of the leading ranges start at or before `limit`. */
  function StartsUpTo(ranges: seq<Range>, limit: Location): (n: nat)
    ensures n <= |ranges|
    ensures forall i :: 0 <= i < n ==> ranges[i].from.AtMost(limit)
    ensures n < |ranges| ==> !ranges[n].from.AtMost(limit)
  {
    if ranges == [] || !ranges[0].from.AtMost(limit) then 0
    else 1 + StartsUpTo(ranges[1..], limit)
  }

  /** Whether a range ending at `end` overlaps or touches one starting at `from`. */
  predicate Reaches(end: Location, from: Location)
  {
    match end.Next()
    case None => true
    case Some(next) => from.AtMost(next)
  }

  class AbsentSet {
    var ranges: seq<Range>

    ghost predicate Valid()
      reads this
    {
      Canonical(ranges) && |ranges| <= MAX_ABSENT_RANGES
    }

    constructor ()
      ensures Valid() && ranges == []
    {
      ranges := [];
    }

    /** Adds `from..=to`, then forgets the lowest ranges past the cap. */
    method Insert(from: Location, to: Location)
      requires Valid() && from.AtMost(to)
      modifies this
      ensures Valid()
      ensures exists merged: seq<Range> ::
                IsUnion(merged, old(ranges), from, to) && ranges == Newest(merged)
    {
      var merged := MergedWith(from, to);
      ranges := merged;
      while |ranges| > MAX_ABSENT_RANGES
        invariant |ranges| <= |merged| && ranges == merged[|merged| - |ranges|..]
        invariant |ranges| == |merged| || |ranges| >= MAX_ABSENT_RANGES
      {
        ranges := ranges[1..];
      }
    }

    /** The ranges once `from..=to` and all it overlaps or touches have become one. */
    method MergedWith(from: Location, to: Location) returns (merged: seq<Range>)
      requires Valid() && from.AtMost(to)
      ensures IsUnion(merged, ranges, from, to)
    {
      var limit := match to.Next() case Some(next) => next case None => to;
      var last := StartsUpTo(ranges, limit);
      var first := last;
      while first > 0 && Reaches(ranges[first - 1].to, from)
        invariant 0 <= first <= last
        invariant forall k :: first <= k < last ==> Reaches(ranges[k].to, from)
      {
        first := first - 1;
      }
      var lo, hi := from, to;
      var k := last;
      while k > first
        invariant first <= k <= last
        invariant Range(lo, hi) == Hull(ranges, from, to, k, last)
      {
        k := k - 1;
        HullGrows(ranges, from, to, k, last);
        lo := Min(lo, ranges[k].from);
        hi := Max(hi, ranges[k].to);
      }
      SpliceIsUnion(ranges, from, to, first, last);
      merged := ranges[..first] + [Range(lo, hi)] + ranges[last..];
    }
  }

  /**
   The cap only forgets, and forgets from the bottom: every Location it drops lies
   before every Location it keeps. Within the cap it drops nothing.
   */
  lemma CapForgetsTheLowest(ranges: seq<Range>, dropped: Location, kept: Location)
    requires Canonical(ranges)
    ensures Denotes(Newest(ranges), kept) ==> Denotes(ranges, kept)
    ensures Denotes(ranges, dropped) && !Denotes(Newest(ranges), dropped) ==> |ranges| > MAX_ABSENT_RANGES
    ensures Denotes(ranges, dropped) && !Denotes(Newest(ranges), dropped) && Denotes(Newest(ranges), kept)
            ==> dropped.Before(kept)
  {
    var newest := Newest(ranges);
    var cut := |ranges| - |newest|;
    if j :| 0 <= j < |newest| && newest[j].Has(kept) {
      assert ranges[cut + j].Has(kept);
      if i :| 0 <= i < |ranges| && ranges[i].Has(dropped) {
        assert i >= cut ==> newest[i - cut].Has(dropped);
      }
    }
  }

  /** `from..=to` stretched over the ranges from `first` up to `last`. */
  function Hull(ranges: seq<Range>, from: Location, to: Location, first: nat, last: nat): Range
    requires first <= last <= |ranges|
  {
    if first == last then Range(from, to)
    else Range(Min(from, ranges[first].from), Max(to, ranges[last - 1].to))
  }

  /** One more range below: the loop that stretches over the ranges one by one. */
  lemma HullGrows(ranges: seq<Range>, from: Location, to: Location, first: nat, last: nat)
    requires Canonical(ranges) && first < last <= |ranges|
    ensures
      var hull := Hull(ranges, from, to, first + 1, last);
      Hull(ranges, from, to, first, last) == Range(Min(hull.from, ranges[first].from), Max(hull.to, ranges[first].to))
  {
    if first + 1 < last {
      assert ranges[first].from.Before(ranges[first + 1].from) && ranges[first].to.Before(ranges[last - 1].to);
    }
  }

  function Splice(ranges: seq<Range>, from: Location, to: Location, first: nat, last: nat): seq<Range>
    requires first <= last <= |ranges|
  {
    ranges[..first] + [Hull(ranges, from, to, first, last)] + ranges[last..]
  }

  /** Everything from `from` to `to` is in the ranges. */
  ghost predicate AllDenoted(ranges: seq<Range>, from: Location, to: Location) {
    forall l: Location :: Range(from, to).Has(l) ==> Denotes(ranges, l)
  }

  /**
   The end of the range holding `location`, if one does: the largest Location such that
   everything from `location` to it is known to be absent.
   */
  function EndContaining(ranges: seq<Range>, location: Location): (end: Option<Location>)
    requires Canonical(ranges)
    ensures end.None? <==> !Denotes(ranges, location)
    ensures end.Some? ==> location.AtMost(end.value) && AllDenoted(ranges, location, end.value)
    ensures end.Some? ==> forall e: Location :: end.value.Before(e) ==> !AllDenoted(ranges, location, e)
  {
    var n := StartsUpTo(ranges, location);
    if n > 0 && location.AtMost(ranges[n - 1].to) then
      RangeEndIsLargest(ranges, location, n - 1);
      Some(ranges[n - 1].to)
    else
      None
  }

  lemma RangeEndIsLargest(ranges: seq<Range>, location: Location, i: nat)
    requires Canonical(ranges) && i < |ranges| && ranges[i].Has(location)
    ensures AllDenoted(ranges, location, ranges[i].to)
    ensures forall e: Location :: ranges[i].to.Before(e) ==> !AllDenoted(ranges, location, e)
  {
    var end := ranges[i].to;
    forall l: Location | Range(location, end).Has(l) ensures Denotes(ranges, l) {
      assert ranges[i].Has(l);
    }
    forall e: Location | end.Before(e) ensures !AllDenoted(ranges, location, e) {
      var next := end.Next().value;
      AfterEndNotDenoted(ranges, i, next);
      assert Range(location, e).Has(next);
    }
  }

  lemma AfterEndNotDenoted(ranges: seq<Range>, i: nat, next: Location)
    requires Canonical(ranges) && i < |ranges| && ranges[i].to.Next() == Some(next)
    ensures !Denotes(ranges, next)
  {
    assert forall j :: 0 <= j < |ranges| ==> !ranges[j].Has(next);
  }

  /** Replacing the ranges that reach the new one by their common hull is the union. */
  lemma SpliceIsUnion(ranges: seq<Range>, from: Location, to: Location, first: nat, last: nat)
    requires Canonical(ranges) && from.AtMost(to) && first <= last <= |ranges|
    requires forall k :: 0 <= k < last ==> Reaches(to, ranges[k].from)
    requires last < |ranges| ==> !Reaches(to, ranges[last].from)
    requires forall k :: first <= k < last ==> Reaches(ranges[k].to, from)
    requires first > 0 ==> !Reaches(ranges[first - 1].to, from)
    ensures IsUnion(Splice(ranges, from, to, first, last), ranges, from, to)
  {
    var merged := Splice(ranges, from, to, first, last);
    SpliceIsCanonical(ranges, from, to, first, last);
    forall l: Location ensures Denotes(merged, l) <==> Denotes(ranges, l) || Range(from, to).Has(l) {
      HullIsUnion(ranges, from, to, first, last, l);
      SpliceDenotes(ranges, from, to, first, last, l);
    }
  }

  lemma SpliceIsCanonical(ranges: seq<Range>, from: Location, to: Location, first: nat, last: nat)
    requires Canonical(ranges) && from.AtMost(to) && first <= last <= |ranges|
    requires last < |ranges| ==> !Reaches(to, ranges[last].from)
    requires first > 0 ==> !Reaches(ranges[first - 1].to, from)
    ensures Canonical(Splice(ranges, from, to, first, last))
  {
    var hull := Hull(ranges, from, to, first, last);
    var merged := Splice(ranges, from, to, first, last);
    CanonicalConcat(ranges[..first], [hull]);
    CanonicalConcat(ranges[..first] + [hull], ranges[last..]);
  }

  lemma CanonicalConcat(a: seq<Range>, b: seq<Range>)
    requires Canonical(a) && Canonical(b)
    requires a != [] && b != [] ==> !Reaches(a[|a| - 1].to, b[0].from)
    ensures Canonical(a + b)
  {
  }

  lemma SpliceDenotes(ranges: seq<Range>, from: Location, to: Location, first: nat, last: nat, l: Location)
    requires first <= last <= |ranges|
    ensures Denotes(Splice(ranges, from, to, first, last), l) <==>
            Denotes(ranges[..first], l) || Hull(ranges, from, to, first, last).Has(l) || Denotes(ranges[last..], l)
    ensures Denotes(ranges, l) <==>
            Denotes(ranges[..first], l) || Denotes(ranges[first..last], l) || Denotes(ranges[last..], l)
  {
    var hull := [Hull(ranges, from, to, first, last)];
    assert Denotes(hull, l) <==> hull[0].Has(l);
    DenotesConcat(ranges[..first] + hull, ranges[last..], l);
    DenotesConcat(ranges[..first], hull, l);
    assert ranges == ranges[..first] + ranges[first..last] + ranges[last..];
    DenotesConcat(ranges[..first] + ranges[first..last], ranges[last..], l);
    DenotesConcat(ranges[..first], ranges[first..last], l);
  }

  lemma DenotesConcat(a: seq<Range>, b: seq<Range>, l: Location)
    ensures Denotes(a + b, l) <==> Denotes(a, l) || Denotes(b, l)
  {
    var c := a + b;
    if i :| 0 <= i < |a| && a[i].Has(l) {
      assert c[i].Has(l);
    }
    if i :| 0 <= i < |b| && b[i].Has(l) {
      assert c[|a| + i].Has(l);
    }
    if i :| 0 <= i < |c| && c[i].Has(l) {
      assert if i < |a| then a[i].Has(l) else b[i - |a|].Has(l);
    }
  }

  /** What the hull has is in one of the ranges or in the new one. */
  lemma HullHasNoMore(ranges: seq<Range>, from: Location, to: Location, first: nat, last: nat, l: Location)
    requires Canonical(ranges) && from.AtMost(to) && first < last <= |ranges|
    requires forall k :: 0 <= k < last ==> Reaches(to, ranges[k].from)
    requires forall k :: first <= k < last ==> Reaches(ranges[k].to, from)
    requires Hull(ranges, from, to, first, last).Has(l) && !Range(from, to).Has(l)
    ensures Denotes(ranges[first..last], l)
  {
    var middle, low, high := ranges[first..last], ranges[first], ranges[last - 1];
    assert middle[0] == low && middle[|middle| - 1] == high;
    if l.Before(from) {
      assert low.Has(l);
    } else {
      assert high.Has(l);
    }
  }

  /** What one of the ranges has the hull has. */
  lemma HullHasAll(ranges: seq<Range>, from: Location, to: Location, first: nat, last: nat, i: nat, l: Location)
    requires Canonical(ranges) && first <= i < last <= |ranges| && ranges[i].Has(l)
    ensures Hull(ranges, from, to, first, last).Has(l)
  {
  }

  lemma HullIsUnion(ranges: seq<Range>, from: Location, to: Location, first: nat, last: nat, l: Location)
    requires Canonical(ranges) && from.AtMost(to) && first <= last <= |ranges|
    requires forall k :: 0 <= k < last ==> Reaches(to, ranges[k].from)
    requires forall k :: first <= k < last ==> Reaches(ranges[k].to, from)
    ensures Hull(ranges, from, to, first, last).Has(l) <==> Denotes(ranges[first..last], l) || Range(from, to).Has(l)
  {
    var middle := ranges[first..last];
    if Denotes(middle, l) {
      var i :| 0 <= i < |middle| && middle[i].Has(l);
      HullHasAll(ranges, from, to, first, last, first + i, l);
    } else if first < last && Hull(ranges, from, to, first, last).Has(l) && !Range(from, to).Has(l) {
      HullHasNoMore(ranges, from, to, first, last, l);
    }
  }

  /** A canonical list is determined by what it denotes. */
  lemma {:induction false} CanonicalIsUnique(a: seq<Range>, b: seq<Range>)
    requires Canonical(a) && Canonical(b)
    requires forall l: Location :: Denotes(a, l) <==> Denotes(b, l)
    ensures a == b
    decreases |a|
  {
    if a == [] {
      if b != [] {
        assert b[0].Has(b[0].from);
        assert Denotes(b, b[0].from);
      }
    } else {
      FirstStartsNoLater(a, b);
      FirstStartsNoLater(b, a);
      FirstEndsNoLater(a, b);
      FirstEndsNoLater(b, a);
      forall l: Location ensures Denotes(a[1..], l) <==> Denotes(b[1..], l) {
        TailDenotes(a, l);
        TailDenotes(b, l);
      }
      CanonicalIsUnique(a[1..], b[1..]);
      assert a == [a[0]] + a[1..] && b == [b[0]] + b[1..];
    }
  }

  lemma FirstStartsNoLater(a: seq<Range>, b: seq<Range>)
    requires Canonical(a) && Canonical(b) && a != []
    requires forall l: Location :: Denotes(a, l) <==> Denotes(b, l)
    ensures b != [] && b[0].from.AtMost(a[0].from)
  {
    var start := a[0].from;
    assert a[0].Has(start);
    assert Denotes(b, start);
    var i :| 0 <= i < |b| && b[i].Has(start);
  }

  lemma FirstEndsNoLater(a: seq<Range>, b: seq<Range>)
    requires Canonical(a) && Canonical(b) && a != [] && b != [] && a[0].from == b[0].from
    requires forall l: Location :: Denotes(a, l) <==> Denotes(b, l)
    ensures a[0].to.AtMost(b[0].to)
  {
    if b[0].to.Before(a[0].to) {
      var next := b[0].to.Next().value;
      AfterEndNotDenoted(b, 0, next);
      assert a[0].Has(next);
      assert false;
    }
  }

  lemma TailDenotes(a: seq<Range>, l: Location)
    requires Canonical(a) && a != []
    ensures Denotes(a[1..], l) <==> Denotes(a, l) && !a[0].Has(l)
  {
    assert a == [a[0]] + a[1..];
    DenotesConcat([a[0]], a[1..], l);
    assert Denotes([a[0]], l) <==> [a[0]][0].Has(l);
    if i :| 0 <= i < |a[1..]| && a[1..][i].Has(l) {
      assert a[1..][i] == a[i + 1];
    }
  }
}
