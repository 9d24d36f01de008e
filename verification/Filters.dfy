/**
 Range Filters: what a request's filters add up to, and what is left of them for a track
 that is already known.

 Ranges within one filter are OR'd, filters sharing a SetID are AND'd, and the SetIDs are
 OR'd with each other; no filter at all passes everything. `Passes` says that about the
 parameters themselves, and everything the relay builds from them is held against it.
 */
module Filters {
  import opened Locations

  datatype Kind = Subgroup | ObjectId | Priority | ObjectProperty | TrackProperty {
    predicate HasPropertyType() { ObjectProperty? || TrackProperty? }
  }

  /** An inclusive range, open-ended without an end. */
  datatype Range = Range(start: U64, end: Option<U64>) {
    predicate Contains(value: U64) {
      value >= start && (end.Some? ==> value <= end.value)
    }
  }

  datatype FilterError = Overflow | PriorityOutOfRange | OddPropertyType | PropertyTypeMismatch | Duplicate | TrackFilterOnObjects

  /** The Ranges as the wire has them: each start from the end before it, each end from its start. */
  datatype RangeFilter = RangeFilter(setId: U8, propertyType: Option<U64>, deltas: seq<(U64, Option<U64>)>) {
    function Ranges(): Result<seq<Range>, FilterError> {
      RangesFrom(deltas, 0)
    }

    function Validate(kind: Kind): Result<seq<Range>, FilterError> {
      if kind.HasPropertyType() && propertyType.Some? && propertyType.value % 2 != 0 then Err(OddPropertyType)
      else if kind.HasPropertyType() != propertyType.Some? then Err(PropertyTypeMismatch)
      else
        match Ranges()
        case Err(e) => Err(e)
        case Ok(ranges) =>
          if kind == Priority && exists r :: r in ranges && (r.start > 255 || (r.end.Some? && r.end.value > 255))
          then Err(PriorityOutOfRange) else Ok(ranges)
    }
  }

  function RangesFrom(deltas: seq<(U64, Option<U64>)>, priorEnd: U64): Result<seq<Range>, FilterError> {
    if deltas == [] then Ok([])
    else
      var (startDelta, endDelta) := deltas[0];
      if priorEnd + startDelta > U64_MAX then Err(Overflow)
      else
        var start: U64 := priorEnd + startDelta;
        if endDelta.Some? && start + endDelta.value > U64_MAX then Err(Overflow)
        else
          var end: Option<U64> := if endDelta.Some? then Some(start + endDelta.value) else None;
          match RangesFrom(deltas[1..], if end.Some? then end.value else priorEnd)
          case Err(e) => Err(e)
          case Ok(rest) => Ok([Range(start, end)] + rest)
  }

  /** A message parameter. A Range Filter without a value is a removal. */
  datatype Param =
    | RangeParam(kind: Kind, filter: Option<RangeFilter>)
    | OtherParam(paramType: nat)
  {
    predicate IsLive() { RangeParam? && filter.Some? }

    predicate IsTrackFilter() { RangeParam? && kind.TrackProperty? }

    predicate InSet(s: U8) { IsLive() && filter.value.setId == s }

    predicate SameType(other: Param) {
      if RangeParam? then other.RangeParam? && other.kind == kind
      else other.OtherParam? && other.paramType == paramType
    }
  }

  /** What an Object or a track is filtered on; a datagram has no subgroup. */
  datatype Fields = Fields(subgroup: Option<U64>, id: U64, priority: U8, properties: map<U64, U64>)

  predicate Within(ranges: seq<Range>, value: U64) {
    exists r :: r in ranges && r.Contains(value)
  }

  predicate PropertyWithin(properties: map<U64, U64>, propertyType: Option<U64>, ranges: seq<Range>) {
    propertyType.Some? && propertyType.value in properties && Within(ranges, properties[propertyType.value])
  }

  // ---- What the parameters mean ----

  predicate CriterionPasses(kind: Kind, propertyType: Option<U64>, ranges: seq<Range>, o: Fields) {
    match kind
    case Subgroup => o.subgroup.Some? && Within(ranges, o.subgroup.value)
    case ObjectId => Within(ranges, o.id)
    case Priority => Within(ranges, o.priority)
    case ObjectProperty => PropertyWithin(o.properties, propertyType, ranges)
    case TrackProperty => PropertyWithin(o.properties, propertyType, ranges)
  }

  predicate ParamPasses(p: Param, o: Fields)
    requires p.IsLive()
  {
    var ranges := p.filter.value.Validate(p.kind);
    ranges.Ok? && CriterionPasses(p.kind, p.filter.value.propertyType, ranges.value, o)
  }

  predicate SetUsed(params: seq<Param>, s: U8) {
    exists p :: p in params && p.InSet(s)
  }

  predicate Unfiltered(params: seq<Param>) {
    forall p :: p in params ==> !p.IsLive()
  }

  /** Every filter of the set that selects Objects passes the Object. */
  predicate SetPassesObject(params: seq<Param>, s: U8, o: Fields) {
    forall p :: p in params && p.InSet(s) && !p.IsTrackFilter() ==> ParamPasses(p, o)
  }

  /** Every filter of the set that selects tracks passes the track. */
  predicate SetPassesTrack(params: seq<Param>, s: U8, track: Fields) {
    forall p :: p in params && p.InSet(s) && p.IsTrackFilter() ==> ParamPasses(p, track)
  }

  /** The Object of the track passes: some SetID lets through both. */
  ghost predicate Passes(params: seq<Param>, track: Fields, o: Fields) {
    Unfiltered(params) ||
    exists s: U8 :: SetUsed(params, s) && SetPassesTrack(params, s, track) && SetPassesObject(params, s, o)
  }

  // ---- What they are turned into ----

  datatype Criterion = Criterion(kind: Kind, propertyType: Option<U64>)

  /** Per SetID, the criteria it holds. */
  type CombinedFilter = map<U8, map<Criterion, seq<Range>>>

  function CriterionOf(p: Param): Criterion
    requires p.IsLive()
  {
    Criterion(p.kind, p.filter.value.propertyType)
  }

  predicate SameKey(p: Param, q: Param)
    requires p.IsLive() && q.IsLive()
  {
    CriterionOf(p) == CriterionOf(q) && p.filter.value.setId == q.filter.value.setId
  }

  /** The combined filter of the parameters, read in order; the first that cannot be applied fails it. */
  function Combined(params: seq<Param>): Result<CombinedFilter, FilterError> {
    if params == [] then Ok(map[])
    else
      var before, p := params[..|params| - 1], params[|params| - 1];
      match Combined(before)
      case Err(e) => Err(e)
      case Ok(f) =>
        if !p.IsLive() then Ok(f)
        else if exists q :: q in before && q.IsLive() && SameKey(q, p) then Err(Duplicate)
        else
          match p.filter.value.Validate(p.kind)
          case Err(e) => Err(e)
          case Ok(ranges) =>
            Ok(Added(f, p, ranges))
  }

  function CombinedForObjects(params: seq<Param>): Result<CombinedFilter, FilterError> {
    match Combined(params)
    case Err(e) => Err(e)
    case Ok(f) =>
      if exists s, c :: s in f && c in f[s] && c.kind.TrackProperty? then Err(TrackFilterOnObjects) else Ok(f)
  }

  predicate CriteriaPass(criteria: map<Criterion, seq<Range>>, o: Fields, track: bool) {
    forall c :: c in criteria && c.kind.TrackProperty? == track ==>
      CriterionPasses(c.kind, c.propertyType, criteria[c], o)
  }

  predicate Matches(f: CombinedFilter, o: Fields) {
    f == map[] || exists s :: s in f && CriteriaPass(f[s], o, false)
  }

  /** The sets whose track criteria pass, without those criteria. */
  function PassingSets(f: CombinedFilter, track: Fields): CombinedFilter {
    map s | s in f && CriteriaPass(f[s], track, true) ::
      map c: Criterion | c in f[s] && !c.kind.TrackProperty? :: f[s][c]
  }

  function NarrowForTrack(f: CombinedFilter, track: Fields): Option<CombinedFilter> {
    if f == map[] then Some(map[])
    else if PassingSets(f, track) == map[] then None
    else Some(PassingSets(f, track))
  }

  // ---- A combined filter means what its parameters mean ----

  /** The filter has the Ranges of the parameter. */
  ghost predicate Holds(f: CombinedFilter, p: Param)
    requires p.IsLive()
  {
    var s := p.filter.value.setId;
    s in f && CriterionOf(p) in f[s] && p.filter.value.Validate(p.kind) == Ok(f[s][CriterionOf(p)])
  }

  ghost predicate Stems(params: seq<Param>, s: U8, c: Criterion) {
    exists p :: p in params && p.InSet(s) && CriterionOf(p) == c
  }

  /** The filter has the Ranges of every live parameter, and nothing else. */
  ghost predicate Represents(f: CombinedFilter, params: seq<Param>) {
    && (forall p :: p in params && p.IsLive() ==> Holds(f, p))
    && (forall s, c :: s in f && c in f[s] ==> Stems(params, s, c))
    && (forall s :: s in f ==> SetUsed(params, s))
  }

  lemma {:induction false} CombinedRepresents(params: seq<Param>)
    requires Combined(params).Ok?
    ensures Represents(Combined(params).value, params)
    decreases |params|
  {
    if params != [] {
      var before, p := params[..|params| - 1], params[|params| - 1];
      CombinedRepresents(before);
      assert params == before + [p];
      RepresentsOneMore(Combined(before).value, before, p, Combined(params).value);
    }
  }

  function Added(f: CombinedFilter, p: Param, ranges: seq<Range>): CombinedFilter
    requires p.IsLive()
  {
    var s := p.filter.value.setId;
    f[s := (if s in f then f[s] else map[])[CriterionOf(p) := ranges]]
  }

  lemma StemsOneMore(before: seq<Param>, p: Param)
    ensures forall s, c :: Stems(before + [p], s, c) <==> Stems(before, s, c) || (p.InSet(s) && CriterionOf(p) == c)
    ensures forall s :: SetUsed(before + [p], s) <==> SetUsed(before, s) || p.InSet(s)
  {
    var after := before + [p];
    assert forall q :: q in after <==> q in before || q == p;
  }

  lemma AddedHasNoMore(f: CombinedFilter, p: Param, ranges: seq<Range>)
    requires p.IsLive()
    ensures forall s, c :: s in Added(f, p, ranges) && c in Added(f, p, ranges)[s] ==>
              (s in f && c in f[s]) || (p.InSet(s) && CriterionOf(p) == c)
    ensures forall s :: s in Added(f, p, ranges) ==> s in f || p.InSet(s)
  {
  }

  lemma RepresentsOneMore(f: CombinedFilter, before: seq<Param>, p: Param, f': CombinedFilter)
    requires Represents(f, before)
    requires p.IsLive() ==>
      && !(exists q :: q in before && q.IsLive() && SameKey(q, p)) && p.filter.value.Validate(p.kind).Ok?
      && f' == Added(f, p, p.filter.value.Validate(p.kind).value)
    requires !p.IsLive() ==> f' == f
    ensures Represents(f', before + [p])
  {
    StemsOneMore(before, p);
    if p.IsLive() {
      var ranges := p.filter.value.Validate(p.kind).value;
      AddedHasNoMore(f, p, ranges);
      forall q | q in before + [p] && q.IsLive() ensures Holds(f', q) {
        assert q in before || q == p;
      }
    }
  }

  lemma CriteriaPassMeans(f: CombinedFilter, params: seq<Param>, s: U8, o: Fields, track: bool)
    requires Represents(f, params) && s in f
    ensures CriteriaPass(f[s], o, track) <==>
            forall p :: p in params && p.InSet(s) && p.IsTrackFilter() == track ==> ParamPasses(p, o)
  {
    if CriteriaPass(f[s], o, track) {
      forall p | p in params && p.InSet(s) && p.IsTrackFilter() == track ensures ParamPasses(p, o) {
        assert Holds(f, p) && CriterionOf(p) in f[s];
      }
    }
    if forall p :: p in params && p.InSet(s) && p.IsTrackFilter() == track ==> ParamPasses(p, o) {
      forall c | c in f[s] && c.kind.TrackProperty? == track ensures CriterionPasses(c.kind, c.propertyType, f[s][c], o) {
        assert Stems(params, s, c);
        var p :| p in params && p.InSet(s) && CriterionOf(p) == c;
        assert Holds(f, p) && ParamPasses(p, o);
      }
    }
  }

  /** A combined filter passes exactly the Objects some SetID of its parameters passes. */
  lemma MatchesMeans(params: seq<Param>, o: Fields)
    requires Combined(params).Ok?
    ensures Matches(Combined(params).value, o) <==>
            Unfiltered(params) || exists s: U8 :: SetUsed(params, s) && SetPassesObject(params, s, o)
  {
    SetsMean(params, o);
  }

  lemma SetsMean(params: seq<Param>, o: Fields)
    requires Combined(params).Ok?
    ensures
      var f: CombinedFilter := Combined(params).value;
      && (f == map[] <==> Unfiltered(params))
      && (forall s: U8 :: s in f <==> SetUsed(params, s))
      && (forall s: U8 :: s in f ==> (CriteriaPass(f[s], o, false) <==> SetPassesObject(params, s, o)))
      && (forall s: U8 :: s in f ==> (CriteriaPass(f[s], o, true) <==> SetPassesTrack(params, s, o)))
  {
    var f: CombinedFilter := Combined(params).value;
    CombinedRepresents(params);
    forall s: U8 | s in f
      ensures CriteriaPass(f[s], o, false) <==> SetPassesObject(params, s, o)
      ensures CriteriaPass(f[s], o, true) <==> SetPassesTrack(params, s, o)
    {
      CriteriaPassMeans(f, params, s, o, false);
      CriteriaPassMeans(f, params, s, o, true);
    }
  }

  lemma NoneMeans(params: seq<Param>, track: Fields)
    requires Combined(params).Ok?
    ensures NarrowForTrack(Combined(params).value, track).None? <==>
            !Unfiltered(params) && forall s: U8 :: SetUsed(params, s) ==> !SetPassesTrack(params, s, track)
  {
    SetsMean(params, track);
    NarrowedSets(Combined(params).value, track, track);
  }

  /** Narrowing keeps the meaning: the narrowed filter passes an Object exactly when both track and Object pass. */
  lemma NarrowMeans(params: seq<Param>, track: Fields, o: Fields)
    requires Combined(params).Ok? && NarrowForTrack(Combined(params).value, track).Some?
    ensures Matches(NarrowForTrack(Combined(params).value, track).value, o) <==> Passes(params, track, o)
  {
    SetsMean(params, track);
    SetsMean(params, o);
    NarrowedSets(Combined(params).value, track, o);
  }

  lemma NarrowedSets(f: CombinedFilter, track: Fields, o: Fields)
    ensures
      var narrowed := PassingSets(f, track);
      && (forall s :: s in narrowed <==> s in f && CriteriaPass(f[s], track, true))
      && (forall s :: s in narrowed ==> (CriteriaPass(narrowed[s], o, false) <==> CriteriaPass(f[s], o, false)))
      && (narrowed == map[] <==> forall s :: s in f ==> !CriteriaPass(f[s], track, true))
  {
    var narrowed := PassingSets(f, track);
    if narrowed != map[] {
      var s :| s in narrowed;
    }
  }

  // ---- When parameters combine ----

  ghost predicate Distinct(params: seq<Param>) {
    forall i, j :: 0 <= i < j < |params| && params[i].IsLive() && params[j].IsLive() ==> !SameKey(params[i], params[j])
  }

  ghost predicate AllValid(params: seq<Param>) {
    forall p :: p in params && p.IsLive() ==> p.filter.value.Validate(p.kind).Ok?
  }

  ghost predicate Clashes(params: seq<Param>, p: Param) {
    p.IsLive() && exists q :: q in params && q.IsLive() && SameKey(q, p)
  }

  lemma DistinctOneMore(before: seq<Param>, p: Param)
    ensures Distinct(before + [p]) <==> Distinct(before) && !Clashes(before, p)
  {
    var params := before + [p];
    assert params[|before|] == p && forall i :: 0 <= i < |before| ==> params[i] == before[i];
    if Clashes(before, p) {
      var q :| q in before && q.IsLive() && SameKey(q, p);
      var i :| 0 <= i < |before| && before[i] == q;
      assert SameKey(params[i], params[|before|]);
    } else if p.IsLive() {
      assert forall i :: 0 <= i < |before| && before[i].IsLive() ==> before[i] in before && !SameKey(before[i], p);
    }
    if Distinct(params) {
      forall i, j | 0 <= i < j < |before| && before[i].IsLive() && before[j].IsLive() ensures !SameKey(before[i], before[j]) {
        assert !SameKey(params[i], params[j]);
      }
    }
  }

  /** Parameters combine exactly when each can be applied and no two say the same thing. */
  lemma {:induction false} CombinesWhen(params: seq<Param>)
    ensures Combined(params).Ok? <==> AllValid(params) && Distinct(params)
    decreases |params|
  {
    if params != [] {
      var before, p := params[..|params| - 1], params[|params| - 1];
      CombinesWhen(before);
      assert params == before + [p];
      DistinctOneMore(before, p);
    }
  }

  // ---- The filters of a known track ----

  /** The parameters to keep, in order. */
  function Where(params: seq<Param>, keep: Param -> bool): (r: seq<Param>)
    ensures forall p :: p in r <==> p in params && keep(p)
  {
    if params == [] then []
    else
      var rest, p := Where(params[..|params| - 1], keep), params[|params| - 1];
      assert params == params[..|params| - 1] + [p];
      if keep(p) then rest + [p] else rest
  }

  lemma {:induction false} WhereStaysDistinct(params: seq<Param>, keep: Param -> bool)
    requires Distinct(params)
    ensures Distinct(Where(params, keep))
    decreases |params|
  {
    if params != [] {
      var init, p := params[..|params| - 1], params[|params| - 1];
      WhereStaysDistinct(init, keep);
      var rest := Where(init, keep);
      forall i | 0 <= i < |rest| && rest[i].IsLive() && p.IsLive() ensures !SameKey(rest[i], p) {
        assert rest[i] in rest;
        var k :| 0 <= k < |init| && init[k] == rest[i];
        assert params[k] == init[k];
      }
    }
  }

  function OfSet(params: seq<Param>, s: U8): seq<Param> {
    Where(params, (p: Param) => p.InSet(s))
  }

  function TrackFilters(params: seq<Param>): seq<Param> {
    Where(params, (p: Param) => p.IsTrackFilter())
  }

  function ObjectFilters(params: seq<Param>): seq<Param> {
    Where(params, (p: Param) => !p.IsTrackFilter())
  }

  /** A SetID the track gets through. */
  ghost predicate Chosen(params: seq<Param>, s: U8, track: Fields) {
    SetUsed(params, s) && SetPassesTrack(params, s, track)
  }

  /** Asking a set's track filters on their own is asking whether the set passes the track. */
  lemma SetPassesOnItsOwn(params: seq<Param>, s: U8, track: Fields)
    requires Combined(params).Ok? && SetUsed(params, s)
    ensures
      var own := Combined(TrackFilters(OfSet(params, s)));
      own.Ok? && (NarrowForTrack(own.value, track).Some? <==> SetPassesTrack(params, s, track))
  {
    var own := TrackFilters(OfSet(params, s));
    CombinesWhen(params);
    WhereStaysDistinct(params, (p: Param) => p.InSet(s));
    WhereStaysDistinct(OfSet(params, s), (p: Param) => p.IsTrackFilter());
    CombinesWhen(own);
    NoneMeans(own, track);
    assert forall p :: p in own <==> p in params && p.InSet(s) && p.IsTrackFilter();
    assert SetPassesTrack(own, s, track) <==> SetPassesTrack(params, s, track);
    if !Unfiltered(own) {
      assert SetUsed(own, s);
      forall t: U8 | SetUsed(own, t) ensures t == s {}
    }
  }

  ghost predicate GroupedAt(sets: map<U8, seq<Param>>, params: seq<Param>, s: U8) {
    && (s in sets <==> SetUsed(params, s))
    && OfSet(params, s) == if s in sets then sets[s] else []
  }

  ghost predicate GroupedAs(sets: map<U8, seq<Param>>, params: seq<Param>) {
    forall s: U8 :: GroupedAt(sets, params, s)
  }

  /** Groups the live filters by SetID. */
  method Grouped(params: seq<Param>) returns (sets: map<U8, seq<Param>>)
    ensures GroupedAs(sets, params)
  {
    sets := map[];
    for i := 0 to |params|
      invariant GroupedAs(sets, params[..i])
    {
      var p := params[i];
      assert params[..i + 1] == params[..i] + [p];
      GroupedOneMore(sets, params[..i], p);
      if p.IsLive() {
        var s := p.filter.value.setId;
        sets := sets[s := (if s in sets then sets[s] else []) + [p]];
      }
    }
    assert params[..|params|] == params;
  }

  function WithGrouped(sets: map<U8, seq<Param>>, p: Param): map<U8, seq<Param>> {
    if !p.IsLive() then sets
    else
      var s := p.filter.value.setId;
      sets[s := (if s in sets then sets[s] else []) + [p]]
  }

  lemma GroupedOneMoreAt(sets: map<U8, seq<Param>>, params: seq<Param>, p: Param, s: U8)
    requires GroupedAt(sets, params, s)
    ensures GroupedAt(WithGrouped(sets, p), params + [p], s)
  {
    var after := params + [p];
    assert after[|params|] == p;
    assert SetUsed(after, s) <==> SetUsed(params, s) || p.InSet(s);
  }

  lemma GroupedOneMore(sets: map<U8, seq<Param>>, params: seq<Param>, p: Param)
    requires GroupedAs(sets, params)
    ensures GroupedAs(WithGrouped(sets, p), params + [p])
  {
    forall s: U8 ensures GroupedAt(WithGrouped(sets, p), params + [p], s) {
      GroupedOneMoreAt(sets, params, p, s);
    }
  }

  /** What has been kept of the sets below `n`. */
  ghost predicate KeptBelow(kept: seq<Param>, params: seq<Param>, track: Fields, n: nat) {
    && (forall p :: p in kept <==>
          p in params && p.IsLive() && !p.IsTrackFilter() && p.filter.value.setId < n && Chosen(params, p.filter.value.setId, track))
    && (forall s: U8 :: s < n && Chosen(params, s, track) ==> SetUsed(kept, s))
    && Distinct(kept)
  }

  lemma OwnObjectFilters(params: seq<Param>, s: U8)
    requires Distinct(params)
    ensures Distinct(ObjectFilters(OfSet(params, s)))
    ensures forall p :: p in ObjectFilters(OfSet(params, s)) <==> p in params && p.InSet(s) && !p.IsTrackFilter()
  {
    WhereStaysDistinct(params, (p: Param) => p.InSet(s));
    WhereStaysDistinct(OfSet(params, s), (p: Param) => !p.IsTrackFilter());
  }

  lemma KeepSet(kept: seq<Param>, params: seq<Param>, track: Fields, s: U8, own: seq<Param>)
    requires KeptBelow(kept, params, track, s) && Chosen(params, s, track) && own != [] && Distinct(own)
    requires forall p :: p in own <==> p in params && p.InSet(s) && !p.IsTrackFilter()
    ensures KeptBelow(kept + own, params, track, s + 1)
  {
    var after := kept + own;
    assert own[0] in own && own[0].InSet(s);
    assert forall p :: p in after <==> p in kept || p in own;
    forall t: U8 | t < s && Chosen(params, t, track) ensures SetUsed(after, t) {
      var p :| p in kept && p.InSet(t);
      assert p in after;
    }
  }

  lemma SkipSet(kept: seq<Param>, params: seq<Param>, track: Fields, s: U8)
    requires KeptBelow(kept, params, track, s) && !Chosen(params, s, track)
    ensures KeptBelow(kept, params, track, s + 1)
  {
  }

  /** What was kept of all sets passes exactly the Objects that pass with the track. */
  lemma KeptMeans(kept: seq<Param>, params: seq<Param>, track: Fields, o: Fields)
    requires Combined(params).Ok? && KeptBelow(kept, params, track, 256) && exists s: U8 :: Chosen(params, s, track)
    ensures CombinedForObjects(kept).Ok?
    ensures Matches(CombinedForObjects(kept).value, o) <==> Passes(params, track, o)
  {
    CombinesWhen(params);
    CombinesWhen(kept);
    LiveOnesAreForObjects(kept);
    MatchesMeans(kept, o);
    var c: U8 :| Chosen(params, c, track);
    assert SetUsed(kept, c) && SetUsed(params, c);
    forall s: U8 ensures SetUsed(kept, s) <==> Chosen(params, s, track) {
      if SetUsed(kept, s) {
        var p :| p in kept && p.InSet(s);
      }
    }
    forall s: U8 | Chosen(params, s, track) ensures SetPassesObject(kept, s, o) <==> SetPassesObject(params, s, o) {
      assert forall p :: p in params && p.InSet(s) && !p.IsTrackFilter() ==> p in kept;
    }
  }

  /**
   For filters that combine: nothing is returned exactly when there are filters and no
   SetID's track filters pass, and otherwise what is returned passes exactly the Objects
   that the original filters pass together with the track.
   */
  ghost predicate RightFor(params: seq<Param>, track: Fields, r: Option<seq<Param>>) {
    Combined(params).Ok? ==>
      && (r.None? <==> !Unfiltered(params) && forall s: U8 :: !Chosen(params, s, track))
      && (r.Some? ==>
            && CombinedForObjects(r.value).Ok?
            && forall o :: Matches(CombinedForObjects(r.value).value, o) <==> Passes(params, track, o))
  }

  /** The Range Filters a pushed track is subscribed with. */
  method FiltersForTrack(params: seq<Param>, track: Fields) returns (r: Option<seq<Param>>)
    ensures RightFor(params, track, r)
    ensures r.Some? ==> forall p :: p in r.value ==> p in params && !p.IsTrackFilter()
  {
    var sets := Grouped(params);
    SetsAreUsed(sets, params);
    if sets == map[] {
      NoSetsMeansUnfiltered(params, track);
      return Some([]);
    }
    var kept: seq<Param> := [];
    var anyPassed := false;
    for s := 0 to 256
      invariant Progress(kept, anyPassed, params, track, s)
      invariant forall p :: p in kept ==> p in params && !p.IsTrackFilter()
    {
      var passes := false;
      assert GroupedAt(sets, params, s);
      if s in sets {
        var own := Combined(TrackFilters(sets[s]));
        passes := own.Ok? && NarrowForTrack(own.value, track).Some?;
      }
      PassesMeansChosen(params, s, track, passes);
      if passes {
        anyPassed := true;
        var objects := ObjectFilters(sets[s]);
        if objects == [] {
          return Some([]);
        }
        KeepProgress(kept, params, track, s);
        kept := kept + objects;
      } else {
        SkipProgress(kept, anyPassed, params, track, s);
      }
    }
    ProgressMeans(kept, anyPassed, params, track);
    r := if anyPassed then Some(kept) else None;
  }

  lemma SetsAreUsed(sets: map<U8, seq<Param>>, params: seq<Param>)
    requires GroupedAs(sets, params)
    ensures sets == map[] <==> forall s: U8 :: !SetUsed(params, s)
  {
    if sets == map[] {
      forall s: U8 ensures !SetUsed(params, s) {
        assert GroupedAt(sets, params, s);
      }
    } else {
      var s :| s in sets;
      assert GroupedAt(sets, params, s);
    }
  }

  lemma NoSetsMeansUnfiltered(params: seq<Param>, track: Fields)
    requires forall s: U8 :: !SetUsed(params, s)
    ensures Unfiltered(params) && RightFor(params, track, Some([]))
  {
    forall p | p in params ensures !p.IsLive() {
      if p.IsLive() {
        assert p.InSet(p.filter.value.setId);
        assert SetUsed(params, p.filter.value.setId);
      }
    }
  }

  /** The loop over the sets, for filters that combine. */
  ghost predicate Progress(kept: seq<Param>, anyPassed: bool, params: seq<Param>, track: Fields, n: nat) {
    Combined(params).Ok? ==>
      && KeptBelow(kept, params, track, n)
      && (anyPassed <==> exists t: U8 :: t < n && Chosen(params, t, track))
  }

  lemma PassesMeansChosen(params: seq<Param>, s: U8, track: Fields, passes: bool)
    requires
      var own := Combined(TrackFilters(OfSet(params, s)));
      passes <==> SetUsed(params, s) && own.Ok? && NarrowForTrack(own.value, track).Some?
    ensures Combined(params).Ok? ==> (passes <==> Chosen(params, s, track))
  {
    if Combined(params).Ok? && SetUsed(params, s) {
      SetPassesOnItsOwn(params, s, track);
    }
  }

  lemma KeepProgress(kept: seq<Param>, params: seq<Param>, track: Fields, s: U8)
    requires Combined(params).Ok? ==> KeptBelow(kept, params, track, s) && Chosen(params, s, track)
    requires ObjectFilters(OfSet(params, s)) != []
    ensures Progress(kept + ObjectFilters(OfSet(params, s)), true, params, track, s + 1)
  {
    if Combined(params).Ok? {
      CombinesWhen(params);
      OwnObjectFilters(params, s);
      KeepSet(kept, params, track, s, ObjectFilters(OfSet(params, s)));
    }
  }

  lemma SkipProgress(kept: seq<Param>, anyPassed: bool, params: seq<Param>, track: Fields, s: U8)
    requires Progress(kept, anyPassed, params, track, s)
    requires Combined(params).Ok? ==> !Chosen(params, s, track)
    ensures Progress(kept, anyPassed, params, track, s + 1)
  {
    if Combined(params).Ok? {
      SkipSet(kept, params, track, s);
    }
  }

  lemma ProgressMeans(kept: seq<Param>, anyPassed: bool, params: seq<Param>, track: Fields)
    requires Progress(kept, anyPassed, params, track, 256)
    requires exists s: U8 :: SetUsed(params, s)
    ensures RightFor(params, track, if anyPassed then Some(kept) else None)
  {
    if Combined(params).Ok? {
      if anyPassed {
        var c: U8 :| Chosen(params, c, track);
        AllKeptMeans(kept, params, track);
      } else {
        assert forall s: U8 :: !Chosen(params, s, track);
      }
    }
  }

  lemma AllKeptMeans(kept: seq<Param>, params: seq<Param>, track: Fields)
    requires Combined(params).Ok? && KeptBelow(kept, params, track, 256) && exists s: U8 :: Chosen(params, s, track)
    ensures CombinedForObjects(kept).Ok?
    ensures forall o :: Matches(CombinedForObjects(kept).value, o) <==> Passes(params, track, o)
  {
    KeptMeans(kept, params, track, track);
    forall o ensures Matches(CombinedForObjects(kept).value, o) <==> Passes(params, track, o) {
      KeptMeans(kept, params, track, o);
    }
  }

  // ---- The filters of a fill ----

  /** An update replaces every parameter of a type it carries; a removal leaves none behind. */
  function Updated(current: seq<Param>, updates: seq<Param>): seq<Param> {
    Where(current, (p: Param) => forall u :: u in updates ==> !u.SameType(p))
    + Where(updates, (u: Param) => !(u.RangeParam? && u.filter.None?))
  }

  /**
   What an update leaves: its own parameters other than removals, and of the current ones
   those of a kind, or of another type, that the update does not carry.
   */
  lemma UpdatedExactly(current: seq<Param>, updates: seq<Param>, p: Param)
    ensures p in Updated(current, updates) <==>
      || (p in updates && (p.OtherParam? || p.filter.Some?))
      || (p in current && match p
          case RangeParam(kind, _) => forall u :: u in updates && u.RangeParam? ==> u.kind != kind
          case OtherParam(paramType) => OtherParam(paramType) !in updates)
  {
  }

  function RangeFilters(params: seq<Param>): seq<Param> {
    Where(params, (p: Param) => p.RangeParam?)
  }

  /** The filter a fill applies, or none if its parameters do not combine. */
  function FillFilter(subscription: seq<Param>, fill: seq<Param>): CombinedFilter {
    match CombinedForObjects(Updated(RangeFilters(subscription), RangeFilters(fill)))
    case Ok(f) => f
    case Err(_) => map[]
  }

  /** Filters in force for a fill: the fill's own, and the subscription's of the kinds the fill does not carry. */
  ghost predicate InForce(p: Param, subscription: seq<Param>, fill: seq<Param>) {
    p.IsLive() && (p in fill || (p in subscription && forall u :: u in fill && u.RangeParam? ==> u.kind != p.kind))
  }

  /**
   Filters that were each accepted on their own always combine for the fill, so its filter
   passes exactly the Objects some SetID of the filters in force passes.
   */
  lemma FillFilterMeans(subscription: seq<Param>, fill: seq<Param>, o: Fields)
    requires CombinedForObjects(subscription).Ok? && CombinedForObjects(fill).Ok?
    ensures
      var updated := Updated(RangeFilters(subscription), RangeFilters(fill));
      && (forall p :: p in updated && p.IsLive() <==> InForce(p, subscription, fill))
      && CombinedForObjects(updated).Ok?
      && (Matches(FillFilter(subscription, fill), o) <==>
            Unfiltered(updated) || exists s: U8 :: SetUsed(updated, s) && SetPassesObject(updated, s, o))
  {
    var kept := Where(RangeFilters(subscription), (p: Param) => forall u :: u in RangeFilters(fill) ==> !u.SameType(p));
    var own := Where(RangeFilters(fill), (u: Param) => !(u.RangeParam? && u.filter.None?));
    CombinesWhen(subscription);
    CombinesWhen(fill);
    WhereStaysDistinct(subscription, (p: Param) => p.RangeParam?);
    WhereStaysDistinct(fill, (p: Param) => p.RangeParam?);
    WhereStaysDistinct(RangeFilters(subscription), (p: Param) => forall u :: u in RangeFilters(fill) ==> !u.SameType(p));
    WhereStaysDistinct(RangeFilters(fill), (u: Param) => !(u.RangeParam? && u.filter.None?));
    var updated := kept + own;
    forall i, j | 0 <= i < |kept| && 0 <= j < |own| && kept[i].IsLive() && own[j].IsLive() ensures !SameKey(kept[i], own[j]) {
      assert kept[i] in kept && own[j] in own;
    }
    CombinesWhen(updated);
    LiveForObjects(subscription);
    LiveForObjects(fill);
    forall p | p in updated && p.IsLive() ensures !p.IsTrackFilter() {
      assert p in kept || p in own;
    }
    LiveOnesAreForObjects(updated);
    MatchesMeans(updated, o);
  }

  lemma LiveForObjects(params: seq<Param>)
    requires CombinedForObjects(params).Ok?
    ensures forall p :: p in params && p.IsLive() ==> !p.IsTrackFilter()
  {
    var f: CombinedFilter := Combined(params).value;
    CombinedRepresents(params);
    forall p | p in params && p.IsLive() ensures !p.IsTrackFilter() {
      assert Holds(f, p);
    }
  }

  lemma LiveOnesAreForObjects(params: seq<Param>)
    requires Combined(params).Ok? && forall p :: p in params && p.IsLive() ==> !p.IsTrackFilter()
    ensures CombinedForObjects(params) == Combined(params)
  {
    var f: CombinedFilter := Combined(params).value;
    CombinedRepresents(params);
    forall s, c | s in f && c in f[s] ensures !c.kind.TrackProperty? {
      assert Stems(params, s, c);
    }
  }
}
