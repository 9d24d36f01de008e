/**
 The client's reception counters: totals, and per subscription the sequence it follows
 and the objects fills delivered to it.
 */
module Stats {
  import opened Locations

  datatype TrackSequence = TrackSequence(
    received: nat, gaps: nat, violations: nat, lastGroup: nat, lastObject: nat, lastGroupSpan: nat)

  datatype TrackReport = TrackReport(track: nat, received: nat, fill: nat, gaps: nat, violations: nat)

  // ---- The lines of the report and their sum ----

  /** What is kept of one subscription; all zero where nothing is. */
  function Line(tracks: map<nat, TrackSequence>, fills: map<nat, nat>, track: nat): TrackReport {
    var fill := if track in fills then fills[track] else 0;
    if track in tracks then
      TrackReport(track, tracks[track].received + fill, fill, tracks[track].gaps, tracks[track].violations)
    else TrackReport(track, fill, fill, 0, 0)
  }

  function Plus(a: TrackReport, b: TrackReport): TrackReport {
    TrackReport(0, a.received + b.received, a.fill + b.fill, a.gaps + b.gaps, a.violations + b.violations)
  }

  /** The lines of all subscriptions below `n`, added up. */
  ghost function Sum(line: nat -> TrackReport, n: nat): (sum: TrackReport)
    ensures sum.track == 0
  {
    if n == 0 then TrackReport(0, 0, 0, 0, 0) else Plus(Sum(line, n - 1), line(n - 1))
  }

  /** When one subscription's line changes, the sum changes by as much. */
  lemma {:induction false} SumMoves(line: nat -> TrackReport, line': nat -> TrackReport, t: nat, n: nat)
    requires forall k :: k != t ==> line(k) == line'(k)
    ensures n <= t ==> Sum(line, n) == Sum(line', n)
    ensures t < n ==> Plus(Sum(line', n), line(t)) == Plus(Sum(line, n), line'(t))
  {
    if n > 0 {
      SumMoves(line, line', t, n - 1);
    }
  }

  /** Where nothing is kept nothing is added. */
  lemma {:induction false} SumSkips(line: nat -> TrackReport, from: nat, to: nat)
    requires from <= to && forall t :: from <= t < to ==> line(t) == TrackReport(t, 0, 0, 0, 0)
    ensures Sum(line, from) == Sum(line, to)
  {
    if from < to {
      SumSkips(line, from, to - 1);
    }
  }

  function LineOf(tracks: map<nat, TrackSequence>, fills: map<nat, nat>): nat -> TrackReport {
    (t: nat) => Line(tracks, fills, t)
  }

  ghost predicate Bounds(tracks: map<nat, TrackSequence>, fills: map<nat, nat>, n: nat) {
    forall t :: t in tracks || t in fills ==> t < n
  }

  /** The totals are the lines added up. */
  ghost predicate AddsUp(tracks: map<nat, TrackSequence>, fills: map<nat, nat>, totals: TrackReport) {
    forall n :: Bounds(tracks, fills, n) ==> Sum(LineOf(tracks, fills), n) == totals
  }

  lemma AddsUpStill(
    tracks: map<nat, TrackSequence>, fills: map<nat, nat>, totals: TrackReport,
    tracks': map<nat, TrackSequence>, fills': map<nat, nat>, totals': TrackReport, t: nat)
    requires AddsUp(tracks, fills, totals)
    requires tracks'.Keys + fills'.Keys == tracks.Keys + fills.Keys + {t}
    requires forall k :: k != t ==> Line(tracks, fills, k) == Line(tracks', fills', k)
    requires totals'.track == 0 && Plus(totals', Line(tracks, fills, t)) == Plus(totals, Line(tracks', fills', t))
    ensures AddsUp(tracks', fills', totals')
  {
    forall n | Bounds(tracks', fills', n) ensures Sum(LineOf(tracks', fills'), n) == totals' {
      assert t in tracks'.Keys + fills'.Keys;
      assert forall k :: k in tracks || k in fills ==> k in tracks'.Keys + fills'.Keys;
      assert Bounds(tracks, fills, n);
      SumMoves(LineOf(tracks, fills), LineOf(tracks', fills'), t, n);
    }
  }

  // ---- The sequence of one subscription ----

  /** Whether an object comes right after the last one. */
  predicate InSequence(s: TrackSequence, group: nat, id: nat) {
    if group == s.lastGroup then id == s.lastObject + 1
    else id == 0 && (s.lastGroupSpan == 0 || group == s.lastGroup + s.lastGroupSpan)
  }

  /** The sequence after an object, and whether the object was expected. */
  function Advanced(before: Option<TrackSequence>, group: nat, id: nat, priorGap: nat): (TrackSequence, bool) {
    match before
    case None => (TrackSequence(1, 0, 0, group, id, if id == 0 then priorGap + 1 else 0), true)
    case Some(s) =>
      var ok := InSequence(s, group, id);
      (TrackSequence(s.received + 1, if ok then s.gaps else s.gaps + 1, s.violations, group, id,
                     if group != s.lastGroup then priorGap + 1 else s.lastGroupSpan), ok)
  }

  /** What an object adds to the totals. */
  lemma AdvancedAddsUp(
    tracks: map<nat, TrackSequence>, fills: map<nat, nat>, totals: TrackReport, t: nat, group: nat, id: nat, priorGap: nat)
    requires AddsUp(tracks, fills, totals)
    ensures
      var (s, ok) := Advanced(if t in tracks then Some(tracks[t]) else None, group, id, priorGap);
      AddsUp(tracks[t := s], fills, Plus(totals, TrackReport(0, 1, 0, if ok then 0 else 1, 0)))
  {
    var (s, ok) := Advanced(if t in tracks then Some(tracks[t]) else None, group, id, priorGap);
    AddsUpStill(tracks, fills, totals, tracks[t := s], fills, Plus(totals, TrackReport(0, 1, 0, if ok then 0 else 1, 0)), t);
  }

  function Filtered(before: Option<TrackSequence>, group: nat, id: nat, passed: bool): TrackSequence {
    var s := if before.Some? then before.value else TrackSequence(0, 0, 0, group, id, 0);
    s.(received := s.received + 1, lastGroup := group, lastObject := id,
       violations := if passed then s.violations else s.violations + 1)
  }

  lemma FilteredAddsUp(
    tracks: map<nat, TrackSequence>, fills: map<nat, nat>, totals: TrackReport, t: nat, group: nat, id: nat, passed: bool)
    requires AddsUp(tracks, fills, totals)
    ensures
      var s := Filtered(if t in tracks then Some(tracks[t]) else None, group, id, passed);
      AddsUp(tracks[t := s], fills, Plus(totals, TrackReport(0, 1, 0, 0, if passed then 0 else 1)))
  {
    var s := Filtered(if t in tracks then Some(tracks[t]) else None, group, id, passed);
    AddsUpStill(tracks, fills, totals, tracks[t := s], fills, Plus(totals, TrackReport(0, 1, 0, 0, if passed then 0 else 1)), t);
  }

  lemma FillAddsUp(tracks: map<nat, TrackSequence>, fills: map<nat, nat>, totals: TrackReport, t: nat)
    requires AddsUp(tracks, fills, totals)
    ensures AddsUp(tracks, fills[t := if t in fills then fills[t] + 1 else 1], Plus(totals, TrackReport(0, 1, 1, 0, 0)))
  {
    var fills' := fills[t := if t in fills then fills[t] + 1 else 1];
    AddsUpStill(tracks, fills, totals, tracks, fills', Plus(totals, TrackReport(0, 1, 1, 0, 0)), t);
  }

  class ReceptionStats {
    var totalReceived: nat
    var fillReceived: nat
    var sequenceGaps: nat
    var duplicates: nat
    var filterViolations: nat
    var lastGroup: nat
    var lastObject: nat
    var tracks: map<nat, TrackSequence>
    var fills: map<nat, nat>

    /** The totals are the sums of what is kept per subscription. */
    ghost predicate Valid()
      reads this
    {
      AddsUp(tracks, fills, Totals())
    }

    function Totals(): TrackReport
      reads this
    {
      TrackReport(0, totalReceived, fillReceived, sequenceGaps, filterViolations)
    }

    constructor ()
      ensures Valid() && tracks == map[] && fills == map[] && duplicates == 0
    {
      totalReceived, fillReceived, sequenceGaps, duplicates, filterViolations := 0, 0, 0, 0, 0;
      lastGroup, lastObject := 0, 0;
      tracks, fills := map[], map[];
      new;
      forall n | Bounds(tracks, fills, n) ensures Sum(LineOf(tracks, fills), n) == Totals() {
        SumSkips(LineOf(tracks, fills), 0, n);
      }
    }

    method RecordObject(track: nat, group: nat, id: nat, priorGap: nat) returns (ok: bool)
      requires Valid()
      modifies this
      ensures Valid()
      ensures
        var (s, expected) := Advanced(if track in old(tracks) then Some(old(tracks)[track]) else None, group, id, priorGap);
        tracks == old(tracks)[track := s] && ok == expected
      ensures totalReceived == old(totalReceived) + 1 && sequenceGaps == old(sequenceGaps) + (if ok then 0 else 1)
      ensures fills == old(fills) && duplicates == old(duplicates) && lastGroup == group && lastObject == id
      ensures fillReceived == old(fillReceived) && filterViolations == old(filterViolations)
    {
      AdvancedAddsUp(tracks, fills, Totals(), track, group, id, priorGap);
      totalReceived := totalReceived + 1;
      lastGroup, lastObject := group, id;
      if track !in tracks {
        tracks := tracks[track := TrackSequence(1, 0, 0, group, id, if id == 0 then priorGap + 1 else 0)];
        return true;
      }
      var s := tracks[track];
      ok := InSequence(s, group, id);
      s := s.(received := s.received + 1);
      if !ok {
        s := s.(gaps := s.gaps + 1);
        sequenceGaps := sequenceGaps + 1;
      }
      if group != s.lastGroup {
        s := s.(lastGroupSpan := priorGap + 1);
      }
      tracks := tracks[track := s.(lastGroup := group, lastObject := id)];
    }

    method RecordFilteredObject(track: nat, group: nat, id: nat, passed: bool) returns (ok: bool)
      requires Valid()
      modifies this
      ensures Valid() && ok == passed
      ensures tracks == old(tracks)[track := Filtered(if track in old(tracks) then Some(old(tracks)[track]) else None, group, id, passed)]
      ensures totalReceived == old(totalReceived) + 1 && filterViolations == old(filterViolations) + (if passed then 0 else 1)
      ensures fills == old(fills) && duplicates == old(duplicates) && lastGroup == group && lastObject == id
      ensures fillReceived == old(fillReceived) && sequenceGaps == old(sequenceGaps)
    {
      FilteredAddsUp(tracks, fills, Totals(), track, group, id, passed);
      totalReceived := totalReceived + 1;
      lastGroup, lastObject := group, id;
      var s := if track in tracks then tracks[track] else TrackSequence(0, 0, 0, group, id, 0);
      s := s.(received := s.received + 1, lastGroup := group, lastObject := id);
      if !passed {
        s := s.(violations := s.violations + 1);
        filterViolations := filterViolations + 1;
      }
      tracks := tracks[track := s];
      return passed;
    }

    method RecordDuplicates(count: nat)
      requires Valid()
      modifies this`duplicates
      ensures Valid() && duplicates == old(duplicates) + count
    {
      duplicates := duplicates + count;
    }

    method RecordFillObject(track: nat)
      requires Valid()
      modifies this
      ensures Valid()
      ensures fills == old(fills)[track := if track in old(fills) then old(fills)[track] + 1 else 1] && tracks == old(tracks)
      ensures totalReceived == old(totalReceived) + 1 && fillReceived == old(fillReceived) + 1
      ensures duplicates == old(duplicates) && sequenceGaps == old(sequenceGaps) && filterViolations == old(filterViolations)
      ensures lastGroup == old(lastGroup) && lastObject == old(lastObject)
    {
      FillAddsUp(tracks, fills, Totals(), track);
      totalReceived := totalReceived + 1;
      fillReceived := fillReceived + 1;
      var count := if track in fills then fills[track] + 1 else 1;
      fills := fills[track := count];
    }

    /**
     One line for each subscription that received anything, in ascending order, and the
     lines add up to the totals.
     */
    method PerTrack() returns (reports: seq<TrackReport>)
      requires Valid()
      ensures IsReport(tracks, fills, reports)
      ensures Together(reports) == Totals()
    {
      var order := Sorted(tracks.Keys + fills.Keys);
      LinesReport(tracks, fills, order);
      LinesAddUp(tracks, fills, Totals(), order);
      reports := Lines(LineOf(tracks, fills), order);
    }
  }

  // ---- The report ----

  ghost predicate Ascends(order: seq<nat>) {
    forall i, j :: 0 <= i < j < |order| ==> order[i] < order[j]
  }

  /** The keys in ascending order, each once. */
  method Sorted(keys: set<nat>) returns (order: seq<nat>)
    ensures Ascends(order) && forall t :: t in order <==> t in keys
  {
    order := [];
    var todo := keys;
    while todo != {}
      invariant Ascends(order)
      invariant forall i, t :: 0 <= i < |order| && t in todo ==> order[i] < t
      invariant forall t :: t in order || t in todo <==> t in keys
      decreases |todo|
    {
      LeastExists(todo);
      var t :| t in todo && IsLeast(t, todo);
      order := order + [t];
      todo := todo - {t};
    }
  }

  predicate IsLeast(t: nat, keys: set<nat>) {
    forall u :: u in keys ==> t <= u
  }

  function Lines(line: nat -> TrackReport, order: seq<nat>): (lines: seq<TrackReport>)
    ensures |lines| == |order| && forall i :: 0 <= i < |order| ==> lines[i] == line(order[i])
  {
    seq(|order|, i requires 0 <= i < |order| => line(order[i]))
  }

  ghost function Together(reports: seq<TrackReport>): (total: TrackReport)
    ensures total.track == 0
  {
    if reports == [] then TrackReport(0, 0, 0, 0, 0)
    else Plus(Together(reports[..|reports| - 1]), reports[|reports| - 1])
  }

  /** Exactly one line, the right one, for each subscription that received anything, in ascending order. */
  ghost predicate IsReport(tracks: map<nat, TrackSequence>, fills: map<nat, nat>, reports: seq<TrackReport>) {
    && (forall i, j :: 0 <= i < j < |reports| ==> reports[i].track < reports[j].track)
    && (forall report: TrackReport :: report in reports <==>
          (report.track in tracks || report.track in fills) && report == Line(tracks, fills, report.track))
  }

  lemma LinesReport(tracks: map<nat, TrackSequence>, fills: map<nat, nat>, order: seq<nat>)
    requires Ascends(order) && forall t :: t in order <==> t in tracks || t in fills
    ensures IsReport(tracks, fills, Lines(LineOf(tracks, fills), order))
  {
    var reports := Lines(LineOf(tracks, fills), order);
    assert forall i :: 0 <= i < |reports| ==> reports[i].track == order[i];
    forall report: TrackReport | (report.track in tracks || report.track in fills) && report == Line(tracks, fills, report.track)
      ensures report in reports
    {
      assert report.track in order;
      var i :| 0 <= i < |order| && order[i] == report.track;
      assert reports[i] == report;
    }
    forall report | report in reports
      ensures (report.track in tracks || report.track in fills) && report == Line(tracks, fills, report.track)
    {
      var i :| 0 <= i < |reports| && reports[i] == report;
      assert order[i] in order;
    }
  }

  /** Every line below `n` that is not empty is in the order. */
  ghost predicate Covers(line: nat -> TrackReport, order: seq<nat>, n: nat) {
    && (forall i :: 0 <= i < |order| ==> order[i] < n)
    && forall t: nat :: t < n && t !in order ==> line(t) == TrackReport(t, 0, 0, 0, 0)
  }

  lemma {:induction false} CoversFront(line: nat -> TrackReport, order: seq<nat>, n: nat)
    requires Ascends(order) && order != [] && Covers(line, order, n)
    ensures
      var front, t := order[..|order| - 1], order[|order| - 1];
      Ascends(front) && Covers(line, front, t) && t < n && Sum(line, t + 1) == Sum(line, n)
  {
    var front, t := order[..|order| - 1], order[|order| - 1];
    assert order == front + [t];
    FrontIsCovered(line, front, t, n);
    SumSkips(line, t + 1, n);
  }

  lemma {:induction false} FrontIsCovered(line: nat -> TrackReport, front: seq<nat>, t: nat, n: nat)
    requires Ascends(front + [t]) && Covers(line, front + [t], n)
    ensures Ascends(front) && Covers(line, front, t) && t < n
    ensures forall u: nat :: t < u < n ==> line(u) == TrackReport(u, 0, 0, 0, 0)
  {
    var order := front + [t];
    assert order[|front|] == t && forall i :: 0 <= i < |front| ==> front[i] == order[i];
    assert forall u: nat :: u in order <==> u in front || u == t;
    assert forall u: nat :: u in front ==> u < t;
  }

  /** The lines in order add up to the sum of all. */
  lemma {:induction false} LinesSum(line: nat -> TrackReport, order: seq<nat>, n: nat)
    requires Ascends(order) && Covers(line, order, n)
    ensures Together(Lines(line, order)) == Sum(line, n)
    decreases |order|
  {
    if order == [] {
      SumSkips(line, 0, n);
    } else {
      var front, t := order[..|order| - 1], order[|order| - 1];
      CoversFront(line, order, n);
      LinesSum(line, front, t);
      var lines := Lines(line, order);
      assert lines[..|lines| - 1] == Lines(line, front);
    }
  }

  lemma LinesAddUp(tracks: map<nat, TrackSequence>, fills: map<nat, nat>, totals: TrackReport, order: seq<nat>)
    requires AddsUp(tracks, fills, totals)
    requires Ascends(order) && forall t :: t in order <==> t in tracks || t in fills
    ensures Together(Lines(LineOf(tracks, fills), order)) == totals
  {
    var n := if order == [] then 0 else order[|order| - 1] + 1;
    assert forall i :: 0 <= i < |order| ==> order[i] < n;
    assert Bounds(tracks, fills, n);
    LinesSum(LineOf(tracks, fills), order, n);
  }

  lemma {:induction false} LeastExists(keys: set<nat>)
    requires keys != {}
    ensures exists t :: t in keys && IsLeast(t, keys)
    decreases |keys|
  {
    var k :| k in keys;
    if keys == {k} {
      assert IsLeast(k, keys);
    } else {
      LeastExists(keys - {k});
      var t :| t in keys - {k} && IsLeast(t, keys - {k});
      var least := if t < k then t else k;
      forall u | u in keys ensures least <= u {
        assert u == k || u in keys - {k};
      }
      assert IsLeast(least, keys);
    }
  }
}
