/**
 The Ranges of a Range Filter on the wire: what the deltas stand for, when they stand for
 nothing, and that Ranges written as deltas read back. From there, what a filter that is
 accepted lets through, and why one is refused.
 */
module FilterRanges {
  import opened Locations
  import opened Filters

  type Deltas = seq<(U64, Option<U64>)>

  // ---- What the deltas stand for, in unbounded numbers ----

  /** The last end before Range `k`, and 0 if there is none. */
  function EndBefore(deltas: Deltas, k: nat): nat
    requires k <= |deltas|
  {
    if k == 0 then 0
    else if deltas[k - 1].1.Some? then EndBefore(deltas, k - 1) + deltas[k - 1].0 + deltas[k - 1].1.value
    else EndBefore(deltas, k - 1)
  }

  function StartAt(deltas: Deltas, k: nat): nat
    requires k < |deltas|
  {
    EndBefore(deltas, k) + deltas[k].0
  }

  function EndAt(deltas: Deltas, k: nat): Option<nat>
    requires k < |deltas|
  {
    if deltas[k].1.Some? then Some(StartAt(deltas, k) + deltas[k].1.value) else None
  }

  ghost predicate FitsAt(deltas: Deltas, k: nat)
    requires k < |deltas|
  {
    StartAt(deltas, k) <= U64_MAX && (deltas[k].1.Some? ==> EndAt(deltas, k).value <= U64_MAX)
  }

  ghost predicate AllFit(deltas: Deltas) {
    forall k :: 0 <= k < |deltas| ==> FitsAt(deltas, k)
  }

  /** The Ranges are those of the deltas, one by one. */
  ghost predicate StandsFor(deltas: Deltas, ranges: seq<Range>) {
    && |ranges| == |deltas|
    && forall k :: 0 <= k < |deltas| ==>
         ranges[k].start == StartAt(deltas, k) && ranges[k].end == EndAt(deltas, k)
  }

  /** Reading from the middle, as the loop over the deltas does. */
  lemma {:induction false} RangesFromMiddle(deltas: Deltas, k: nat)
    requires k <= |deltas| && EndBefore(deltas, k) <= U64_MAX
    ensures
      match RangesFrom(deltas[k..], EndBefore(deltas, k))
      case Ok(ranges) =>
        && |ranges| == |deltas| - k
        && forall j :: k <= j < |deltas| ==>
             FitsAt(deltas, j) && ranges[j - k].start == StartAt(deltas, j) && ranges[j - k].end == EndAt(deltas, j)
      case Err(e) => e == Overflow && exists j :: k <= j < |deltas| && !FitsAt(deltas, j)
    decreases |deltas| - k
  {
    if k < |deltas| {
      assert deltas[k..][0] == deltas[k] && deltas[k..][1..] == deltas[k + 1..];
      if FitsAt(deltas, k) {
        RangesFromMiddle(deltas, k + 1);
      }
    }
  }

  /** The deltas stand for Ranges exactly if no start and no end passes the largest number, and then for these. */
  lemma RangesExactly(f: RangeFilter)
    ensures f.Ranges() == Err(Overflow) <==> !AllFit(f.deltas)
    ensures f.Ranges().Ok? <==> AllFit(f.deltas)
    ensures f.Ranges().Ok? ==> StandsFor(f.deltas, f.Ranges().value)
  {
    assert f.deltas[0..] == f.deltas;
    RangesFromMiddle(f.deltas, 0);
  }

  // ---- Writing Ranges ----

  /** The last end before Range `k` of a list, and 0 if there is none. */
  function LastEnd(ranges: seq<Range>, k: nat): U64
    requires k <= |ranges|
  {
    if k == 0 then 0 else if ranges[k - 1].end.Some? then ranges[k - 1].end.value else LastEnd(ranges, k - 1)
  }

  /** Range `k` starts no earlier than the last one ended, does not end before it starts, and has an end unless it is the last. */
  ghost predicate InOrderAt(ranges: seq<Range>, k: nat)
    requires k < |ranges|
  {
    && LastEnd(ranges, k) <= ranges[k].start
    && (ranges[k].end.Some? ==> ranges[k].start <= ranges[k].end.value)
    && (ranges[k].end.None? ==> k + 1 == |ranges|)
  }

  ghost predicate InOrder(ranges: seq<Range>) {
    forall k :: 0 <= k < |ranges| ==> InOrderAt(ranges, k)
  }

  /** Writes Ranges as deltas; nothing for Ranges out of order. */
  method Written(ranges: seq<Range>) returns (deltas: Option<Deltas>)
    ensures deltas.Some? <==> InOrder(ranges)
    ensures deltas.Some? ==> AllFit(deltas.value) && StandsFor(deltas.value, ranges)
    ensures deltas.Some? ==> RangesFrom(deltas.value, 0) == Ok(ranges)
  {
    var out: Deltas := [];
    var priorEnd: U64 := 0;
    for i := 0 to |ranges|
      invariant |out| == i && priorEnd == LastEnd(ranges, i) == EndBefore(out, i)
      invariant forall k :: 0 <= k < i ==> InOrderAt(ranges, k)
      invariant AllFit(out) && StandsFor(out, ranges[..i])
    {
      var range := ranges[i];
      if range.start < priorEnd || (range.end.Some? && range.end.value < range.start) || (range.end.None? && i + 1 != |ranges|) {
        assert !InOrderAt(ranges, i);
        return None;
      }
      var delta: (U64, Option<U64>) := (range.start - priorEnd, if range.end.Some? then Some(range.end.value - range.start) else None);
      OneMoreDelta(out, delta, ranges[..i], range);
      assert ranges[..i] + [range] == ranges[..i + 1];
      out := out + [delta];
      if range.end.Some? {
        priorEnd := range.end.value;
      }
    }
    assert ranges[..|ranges|] == ranges;
    ReadsBack(out, ranges);
    return Some(out);
  }

  lemma {:induction false} EndBeforeOfMore(deltas: Deltas, delta: (U64, Option<U64>), k: nat)
    requires k <= |deltas|
    ensures EndBefore(deltas + [delta], k) == EndBefore(deltas, k)
  {
    if k > 0 {
      EndBeforeOfMore(deltas, delta, k - 1);
    }
  }

  lemma {:induction false} OneMoreDelta(deltas: Deltas, delta: (U64, Option<U64>), ranges: seq<Range>, range: Range)
    requires AllFit(deltas) && StandsFor(deltas, ranges)
    requires EndBefore(deltas, |deltas|) + delta.0 == range.start
    requires range.end == if delta.1.Some? then Some(range.start + delta.1.value) else None
    ensures AllFit(deltas + [delta]) && StandsFor(deltas + [delta], ranges + [range])
    ensures EndBefore(deltas + [delta], |deltas| + 1) == if range.end.Some? then range.end.value else EndBefore(deltas, |deltas|)
  {
    var after := deltas + [delta];
    forall k | 0 <= k <= |deltas| ensures EndBefore(after, k) == EndBefore(deltas, k) {
      EndBeforeOfMore(deltas, delta, k);
    }
    forall k | 0 <= k < |deltas| ensures FitsAt(after, k) && StartAt(after, k) == StartAt(deltas, k) && EndAt(after, k) == EndAt(deltas, k) {
      assert after[k] == deltas[k] && FitsAt(deltas, k);
    }
    assert after[|deltas|] == delta;
  }

  lemma {:induction false} ReadsBack(deltas: Deltas, ranges: seq<Range>)
    requires AllFit(deltas) && StandsFor(deltas, ranges)
    ensures RangesFrom(deltas, 0) == Ok(ranges)
  {
    var f := RangeFilter(0, None, deltas);
    RangesExactly(f);
    forall k | 0 <= k < |ranges| ensures f.Ranges().value[k] == ranges[k] {
      assert FitsAt(deltas, k);
    }
    assert f.Ranges().value == ranges;
  }

  // ---- Which filters are accepted, and what they let through ----

  ghost predicate TypeFits(f: RangeFilter, kind: Kind) {
    f.propertyType.Some? <==> kind == ObjectProperty || kind == TrackProperty
  }

  /** A priority is one byte. */
  ghost predicate PrioritiesFit(deltas: Deltas) {
    forall k :: 0 <= k < |deltas| ==> StartAt(deltas, k) <= 255 && (deltas[k].1.Some? ==> EndAt(deltas, k).value <= 255)
  }

  ghost predicate OddType(f: RangeFilter, kind: Kind) {
    TypeFits(f, kind) && f.propertyType.Some? && f.propertyType.value % 2 == 1
  }

  /** Which filters are accepted, with which Ranges, and which refusal the others get. */
  lemma ValidExactly(f: RangeFilter, kind: Kind)
    ensures
      var r := f.Validate(kind);
      && (r == Err(OddPropertyType) <==> OddType(f, kind))
      && (r == Err(PropertyTypeMismatch) <==> !TypeFits(f, kind))
      && (r == Err(Overflow) <==> TypeFits(f, kind) && !OddType(f, kind) && !AllFit(f.deltas))
      && (r == Err(PriorityOutOfRange) <==> TypeFits(f, kind) && AllFit(f.deltas) && kind == Priority && !PrioritiesFit(f.deltas))
      && (r.Ok? <==> TypeFits(f, kind) && !OddType(f, kind) && AllFit(f.deltas) && (kind == Priority ==> PrioritiesFit(f.deltas)))
      && (r.Ok? ==> StandsFor(f.deltas, r.value))
  {
    RangesExactly(f);
    if f.Ranges().Ok? {
      var ranges := f.Ranges().value;
      if PrioritiesFit(f.deltas) {
        forall r | r in ranges ensures r.start <= 255 && (r.end.Some? ==> r.end.value <= 255) {
          var k :| 0 <= k < |ranges| && ranges[k] == r;
          assert StartAt(f.deltas, k) <= 255;
        }
      } else {
        var k :| 0 <= k < |f.deltas| && !(StartAt(f.deltas, k) <= 255 && (f.deltas[k].1.Some? ==> EndAt(f.deltas, k).value <= 255));
        assert ranges[k] in ranges;
      }
    }
  }

  /** The number a filter of the kind looks at in an Object or a track, if it has one. */
  ghost predicate LooksAt(kind: Kind, propertyType: Option<U64>, o: Fields, v: U64) {
    || (kind == Subgroup && o.subgroup == Some(v))
    || (kind == ObjectId && o.id == v)
    || (kind == Priority && o.priority == v)
    || ((kind == ObjectProperty || kind == TrackProperty) && propertyType.Some?
        && propertyType.value in o.properties && o.properties[propertyType.value] == v)
  }

  /** The number lies in Range `k`, both ends included. */
  ghost predicate LiesIn(deltas: Deltas, k: nat, v: U64)
    requires k < |deltas|
  {
    StartAt(deltas, k) <= v && (deltas[k].1.Some? ==> v <= EndAt(deltas, k).value)
  }

  /** A filter that is accepted lets through exactly what has the number it looks at, in one of its Ranges; others nothing. */
  lemma PassesExactly(p: Param, o: Fields)
    requires p.IsLive()
    ensures ParamPasses(p, o) <==>
      && p.filter.value.Validate(p.kind).Ok?
      && exists v: U64, k :: 0 <= k < |p.filter.value.deltas|
           && LooksAt(p.kind, p.filter.value.propertyType, o, v) && LiesIn(p.filter.value.deltas, k, v)
  {
    var f := p.filter.value;
    ValidExactly(f, p.kind);
    if f.Validate(p.kind).Ok? {
      forall v: U64 ensures Within(f.Validate(p.kind).value, v) <==> exists k :: 0 <= k < |f.deltas| && LiesIn(f.deltas, k, v) {
        WithinExactly(f.deltas, f.Validate(p.kind).value, v);
      }
      if ParamPasses(p, o) {
        var v: U64 :| LooksAt(p.kind, f.propertyType, o, v) && Within(f.Validate(p.kind).value, v);
      }
    }
  }

  lemma {:induction false} WithinExactly(deltas: Deltas, ranges: seq<Range>, v: U64)
    requires StandsFor(deltas, ranges)
    ensures Within(ranges, v) <==> exists k :: 0 <= k < |deltas| && LiesIn(deltas, k, v)
  {
    if Within(ranges, v) {
      var r :| r in ranges && r.Contains(v);
      var k :| 0 <= k < |ranges| && ranges[k] == r;
      assert LiesIn(deltas, k, v);
    }
    if k :| 0 <= k < |deltas| && LiesIn(deltas, k, v) {
      assert ranges[k] in ranges && ranges[k].Contains(v);
    }
  }

  // ---- Which parameters are refused ----

  /** Parameter `k` is the first that cannot be applied, and why. */
  ghost predicate FailsAt(params: seq<Param>, k: nat, e: FilterError)
    requires k < |params|
  {
    && params[k].IsLive()
    && if Clashes(params[..k], params[k]) then e == Duplicate
       else params[k].filter.value.Validate(params[k].kind) == Err(e)
  }

  ghost predicate Refuses(params: seq<Param>, e: FilterError) {
    exists k :: 0 <= k < |params| && Combined(params[..k]).Ok? && FailsAt(params, k, e)
  }

  lemma {:induction false} RefusesOneMore(before: seq<Param>, p: Param, e: FilterError)
    ensures Refuses(before + [p], e) <==> Refuses(before, e) || (Combined(before).Ok? && FailsAt(before + [p], |before|, e))
  {
    var params := before + [p];
    assert params[..|before|] == before;
    forall k | 0 <= k < |before| ensures params[..k] == before[..k] && params[k] == before[k] {}
    if Refuses(before, e) {
      var k :| 0 <= k < |before| && Combined(before[..k]).Ok? && FailsAt(before, k, e);
      assert FailsAt(params, k, e);
    }
    if Refuses(params, e) {
      var k :| 0 <= k < |params| && Combined(params[..k]).Ok? && FailsAt(params, k, e);
      assert k < |before| ==> FailsAt(before, k, e);
    }
  }

  /** Parameters are refused with the error of the first that repeats an earlier one or is not accepted by itself. */
  lemma {:induction false} RefusedWith(params: seq<Param>, e: FilterError)
    ensures Combined(params) == Err(e) <==> Refuses(params, e)
    decreases |params|
  {
    if params != [] {
      var before, p := params[..|params| - 1], params[|params| - 1];
      assert params == before + [p];
      RefusedWith(before, e);
      RefusesOneMore(before, p, e);
    }
  }

  /** Filters for Objects are refused further only for a filter that selects tracks. */
  lemma ForObjectsExactly(params: seq<Param>)
    ensures CombinedForObjects(params) ==
      if Combined(params).Ok? && exists p :: p in params && p.IsLive() && p.IsTrackFilter() then Err(TrackFilterOnObjects)
      else Combined(params)
  {
    if Combined(params).Ok? {
      if CombinedForObjects(params).Ok? {
        LiveForObjects(params);
      } else if !(exists p :: p in params && p.IsLive() && p.IsTrackFilter()) {
        LiveOnesAreForObjects(params);
      }
    }
  }
}
