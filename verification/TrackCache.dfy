/**
 The relay's cache of one track: the Objects it holds, group by group in Object ID
 order, and the Locations it knows to hold none.

 The cache is only ever told the truth about the track, but it forgets: groups are
 evicted whole, and known absences fall out past a cap. It may answer a range only
 when every Location of the range is accounted for.
 */
module TrackCache {
  import opened Locations
  import opened AbsentRanges

  /** `content` stands for the subgroup, priority, Properties and payload. */
  datatype Object = Object(group: U64, id: U64, content: seq<bv8>) {
    function Place(): Location { Location(group, id) }
  }

  // ---- One group ----

  ghost predicate Ascending(objects: seq<Object>) {
    forall i, j :: 0 <= i < j < |objects| ==> objects[i].id < objects[j].id
  }

  ghost predicate Holds(objects: seq<Object>, id: U64) {
    exists i :: 0 <= i < |objects| && objects[i].id == id
  }

  /** How many of the Objects of an ascending group have an ID below `id`. */
  function CountBelow(objects: seq<Object>, id: nat): (n: nat)
    requires Ascending(objects)
    ensures n <= |objects|
    ensures forall i :: 0 <= i < |objects| ==> (i < n <==> objects[i].id < id)
  {
    if objects == [] || objects[|objects| - 1].id < id then |objects|
    else CountBelow(objects[..|objects| - 1], id)
  }

  /** A sorted insert that keeps the Object already there. */
  function Inserted(objects: seq<Object>, o: Object): (r: seq<Object>)
    requires Ascending(objects)
    ensures Ascending(r)
    ensures forall x :: x in r <==> x in objects || (x == o && !Holds(objects, o.id))
  {
    var n := CountBelow(objects, o.id);
    if n < |objects| && objects[n].id == o.id then objects
    else
      objects[..n] + [o] + objects[n..]
  }

  /** The Objects with an ID from `lo` to `hi`. */
  function Between(objects: seq<Object>, lo: U64, hi: U64): (r: seq<Object>)
    requires Ascending(objects)
    ensures Ascending(r)
    ensures forall x :: x in r <==> x in objects && lo <= x.id <= hi
  {
    var first := CountBelow(objects, lo);
    var last := CountBelow(objects, hi + 1);
    objects[first..if last < first then first else last]
  }

  // ---- What a lookup answers ----

  /**
   Every ID from `lo` to `hi` that is not known to be absent is held, and no held ID
   below it is marked absent.
   */
  ghost predicate Complete(objects: seq<Object>, absent: seq<Range>, group: U64, lo: U64, hi: U64) {
    AccountedBelow(objects, absent, group, lo, hi + 1)
  }

  ghost predicate AccountedBelow(objects: seq<Object>, absent: seq<Range>, group: U64, lo: U64, bound: int) {
    forall id: U64 | lo <= id < bound && !Denotes(absent, Location(group, id)) ::
      AccountedFor(objects, absent, group, lo, id)
  }

  ghost predicate AccountedFor(objects: seq<Object>, absent: seq<Range>, group: U64, lo: U64, id: U64) {
    && Holds(objects, id)
    && forall a: U64 | lo <= a < id && Holds(objects, a) :: !Denotes(absent, Location(group, a))
  }

  ghost function Answer(objects: seq<Object>, absent: seq<Range>, group: U64, lo: U64, hi: U64)
    : Option<seq<Object>>
    requires Ascending(objects)
  {
    if Complete(objects, absent, group, lo, hi) then Some(Between(objects, lo, hi)) else None
  }

  /** The cursor walk of a lookup, over the Objects of one group and the known absences. */
  method AnswerFrom(objects: seq<Object>, absent: seq<Range>, group: U64, lo: U64, hi: U64)
    returns (r: Option<seq<Object>>)
    requires Ascending(objects) && Canonical(absent)
    ensures r == Answer(objects, absent, group, lo, hi)
  {
    var wanted := Between(objects, lo, hi);
    var held := 0;
    var cursor: U64 := lo;
    var done := false;
    while !done && cursor <= hi
      invariant lo <= cursor && held <= |wanted|
      invariant AccountedBelow(objects, absent, group, lo, if done then hi + 1 else cursor)
      invariant !done ==> InStep(wanted, absent, group, cursor, held)
      decreases if done then 0 else 1, U64_MAX - cursor
    {
      var end := EndContaining(absent, Location(group, cursor));
      if end.Some? {
        PastAbsent(objects, absent, group, lo, hi, cursor, end.value);
        if end.value.group > group || end.value.id >= hi {
          done := true;
        } else {
          cursor := end.value.id + 1;
        }
      } else if held < |wanted| && wanted[held].id == cursor {
        HeldInStep(objects, absent, group, lo, hi, cursor, held);
        PastHeld(objects, absent, group, lo, cursor);
        held := held + 1;
        if cursor < U64_MAX {
          cursor := cursor + 1;
        } else {
          done := true;
        }
      } else {
        NotHeldInStep(objects, absent, group, lo, hi, cursor, held);
        return None;
      }
    }
    r := Some(wanted);
  }

  /** Below the cursor: the Objects counted so far, none of them absent, and the next one if it is. */
  ghost predicate InStep(wanted: seq<Object>, absent: seq<Range>, group: U64, cursor: U64, held: nat)
    requires held <= |wanted|
  {
    && (forall k :: 0 <= k < held ==> wanted[k].id < cursor && !Denotes(absent, Location(group, wanted[k].id)))
    && (held < |wanted| && wanted[held].id < cursor ==> Denotes(absent, Location(group, wanted[held].id)))
  }

  lemma PastAbsent(objects: seq<Object>, absent: seq<Range>, group: U64, lo: U64, hi: U64, cursor: U64, end: Location)
    requires AccountedBelow(objects, absent, group, lo, cursor)
    requires forall id: U64 :: cursor <= id && (end.group > group || id <= end.id) ==> Denotes(absent, Location(group, id))
    ensures end.group > group || end.id >= hi ==> AccountedBelow(objects, absent, group, lo, hi + 1)
    ensures end.group <= group ==> AccountedBelow(objects, absent, group, lo, end.id + 1)
  {
  }

  lemma PastHeld(objects: seq<Object>, absent: seq<Range>, group: U64, lo: U64, cursor: U64)
    requires AccountedBelow(objects, absent, group, lo, cursor) && AccountedFor(objects, absent, group, lo, cursor)
    ensures AccountedBelow(objects, absent, group, lo, cursor + 1)
  {
  }

  /** A held ID is one of the wanted ones. */
  lemma WantedHas(objects: seq<Object>, lo: U64, hi: U64, id: U64) returns (k: nat)
    requires Ascending(objects) && lo <= id <= hi && Holds(objects, id)
    ensures k < |Between(objects, lo, hi)| && Between(objects, lo, hi)[k].id == id
  {
    var i :| 0 <= i < |objects| && objects[i].id == id;
    assert objects[i] in Between(objects, lo, hi);
    k :| 0 <= k < |Between(objects, lo, hi)| && Between(objects, lo, hi)[k] == objects[i];
  }

  lemma HeldInStep(objects: seq<Object>, absent: seq<Range>, group: U64, lo: U64, hi: U64, cursor: U64, held: nat)
    requires Ascending(objects) && lo <= cursor <= hi
    requires held < |Between(objects, lo, hi)| && Between(objects, lo, hi)[held].id == cursor
    requires InStep(Between(objects, lo, hi), absent, group, cursor, held) && !Denotes(absent, Location(group, cursor))
    ensures AccountedFor(objects, absent, group, lo, cursor)
    ensures cursor < U64_MAX ==> InStep(Between(objects, lo, hi), absent, group, cursor + 1, held + 1)
  {
    var wanted := Between(objects, lo, hi);
    assert wanted[held] in objects;
  }

  lemma NotHeldInStep(objects: seq<Object>, absent: seq<Range>, group: U64, lo: U64, hi: U64, cursor: U64, held: nat)
    requires Ascending(objects) && lo <= cursor <= hi
    requires held <= |Between(objects, lo, hi)| && InStep(Between(objects, lo, hi), absent, group, cursor, held)
    requires held < |Between(objects, lo, hi)| ==> Between(objects, lo, hi)[held].id != cursor
    ensures !AccountedFor(objects, absent, group, lo, cursor)
  {
    var wanted := Between(objects, lo, hi);
    if Holds(objects, cursor) {
      var k := WantedHas(objects, lo, hi, cursor);
      assert held < k;
      assert wanted[held] in wanted;
    }
  }

  // ---- The cache ----

  datatype CacheState = CacheState(groups: map<U64, seq<Object>>, absent: seq<Range>) {
    ghost predicate Valid() {
      && Canonical(absent) && |absent| <= MAX_ABSENT_RANGES
      && forall g :: g in groups ==> Ascending(groups[g]) && forall o :: o in groups[g] ==> o.group == g
    }

    /** A group the cache does not hold has no Objects to offer. */
    function ObjectsOf(group: U64): seq<Object> {
      if group in groups then groups[group] else []
    }
  }

  datatype CacheOp =
    | Add(o: Object)
    | MarkAbsent(from: Location, to: Location)
    | Evict(group: U64)

  ghost predicate CacheStep(s: CacheState, op: CacheOp, s': CacheState)
    requires s.Valid()
  {
    match op
    case Add(o) =>
      s' == s.(groups := s.groups[o.group := Inserted(s.ObjectsOf(o.group), o)])
    case MarkAbsent(from, to) =>
      if from.AtMost(to) then
        && s'.groups == s.groups
        && exists merged: seq<Range> :: IsUnion(merged, s.absent, from, to) && s'.absent == Newest(merged)
      else s' == s
    case Evict(group) =>
      s' == s.(groups := s.groups - {group})
  }

  class Cache {
    var groups: map<U64, seq<Object>>
    const absent: AbsentSet

    ghost function State(): CacheState
      reads this, absent
    {
      CacheState(groups, absent.ranges)
    }

    ghost predicate Valid()
      reads this, absent
    {
      State().Valid()
    }

    constructor ()
      ensures Valid() && State() == CacheState(map[], []) && fresh(absent)
    {
      groups := map[];
      absent := new AbsentSet();
    }

    method AddObject(o: Object)
      requires Valid()
      modifies this
      ensures Valid() && CacheStep(old(State()), Add(o), State())
    {
      var objects := if o.group in groups then groups[o.group] else [];
      groups := groups[o.group := Inserted(objects, o)];
    }

    method MarkAbsent(from: Location, to: Location)
      requires Valid()
      modifies absent
      ensures Valid() && CacheStep(old(State()), CacheOp.MarkAbsent(from, to), State())
    {
      if from.AtMost(to) {
        absent.Insert(from, to);
      }
    }

    /** The store may drop a whole group at any moment. */
    method EvictGroup(group: U64)
      requires Valid()
      modifies this
      ensures Valid() && CacheStep(old(State()), Evict(group), State())
    {
      groups := groups - {group};
    }

    method ObjectsIfComplete(group: U64, lo: U64, hi: U64) returns (r: Option<seq<Object>>)
      requires Valid()
      ensures r == Answer(State().ObjectsOf(group), State().absent, group, lo, hi)
    {
      var objects := if group in groups then groups[group] else [];
      r := AnswerFrom(objects, absent.ranges, group, lo, hi);
    }
  }

  // ---- Whole runs against a fixed track ----

  /** What has been, or ever will be, published on the track. */
  type Track = imap<Location, Object>

  ghost predicate Truthful(op: CacheOp, track: Track) {
    match op
    case Add(o) => o.Place() in track && track[o.Place()] == o
    case MarkAbsent(from, to) => forall l: Location :: Range(from, to).Has(l) ==> l !in track
    case Evict(_) => true
  }

  ghost predicate Agrees(s: CacheState, track: Track) {
    && s.Valid()
    && (forall g, o :: g in s.groups && o in s.groups[g] ==> o.Place() in track && track[o.Place()] == o)
    && (forall l: Location :: Denotes(s.absent, l) ==> l !in track)
  }

  ghost predicate IsRun(states: seq<CacheState>, ops: seq<CacheOp>) {
    && |states| == |ops| + 1
    && states[0] == CacheState(map[], [])
    && forall i :: 0 <= i < |ops| ==> states[i].Valid() && CacheStep(states[i], ops[i], states[i + 1])
  }

  lemma StepKeepsAgreement(s: CacheState, op: CacheOp, s': CacheState, track: Track)
    requires Agrees(s, track) && Truthful(op, track) && CacheStep(s, op, s')
    ensures Agrees(s', track)
  {
    match op
    case Add(o) =>
    case MarkAbsent(from, to) =>
      if from.AtMost(to) {
        var merged: seq<Range> :| IsUnion(merged, s.absent, from, to) && s'.absent == Newest(merged);
        forall l: Location | Denotes(s'.absent, l) ensures l !in track {
          CapForgetsTheLowest(merged, l, l);
        }
      }
    case Evict(group) =>
  }

  lemma EmptyAgrees(track: Track)
    ensures Agrees(CacheState(map[], []), track)
  {
  }

  lemma {:induction false} RunAgrees(states: seq<CacheState>, ops: seq<CacheOp>, track: Track, n: nat)
    requires IsRun(states, ops) && n < |states|
    requires forall i :: 0 <= i < |ops| ==> Truthful(ops[i], track)
    ensures Agrees(states[n], track)
  {
    if n == 0 {
      EmptyAgrees(track);
    } else {
      RunAgrees(states, ops, track, n - 1);
      StepKeepsAgreement(states[n - 1], ops[n - 1], states[n], track);
    }
  }

  /** `objects` is exactly what the track has in the range, in ascending ID order. */
  ghost predicate IsExactly(objects: seq<Object>, track: Track, group: U64, lo: U64, hi: U64) {
    && Ascending(objects)
    && (forall o :: o in objects ==> o.group == group && lo <= o.id <= hi && o.Place() in track && track[o.Place()] == o)
    && (forall id: U64 :: lo <= id <= hi && Location(group, id) in track ==> track[Location(group, id)] in objects)
  }

  /**
   A lookup reads the group at one moment of a run and the absences at another, with
   anything in between. Whatever it answers is exactly the track's content of the
   range, and it answers whenever every ID was held or known to be absent.
   */
  lemma AnswersAreExact(
    states: seq<CacheState>, ops: seq<CacheOp>, track: Track, i: nat, j: nat, group: U64, lo: U64, hi: U64)
    requires IsRun(states, ops) && i < |states| && j < |states|
    requires forall k :: 0 <= k < |ops| ==> Truthful(ops[k], track)
    requires forall l :: l in track ==> track[l].Place() == l
    ensures states[i].Valid()
    ensures
      var objects := states[i].ObjectsOf(group);
      var answer := Answer(objects, states[j].absent, group, lo, hi);
      && (answer.Some? ==> IsExactly(answer.value, track, group, lo, hi))
      && (answer.Some? <==> forall id: U64 | lo <= id <= hi ::
            Holds(objects, id) || Denotes(states[j].absent, Location(group, id)))
  {
    RunAgrees(states, ops, track, i);
    RunAgrees(states, ops, track, j);
    var objects, absent := states[i].ObjectsOf(group), states[j].absent;
    forall id: U64 | Holds(objects, id) ensures !Denotes(absent, Location(group, id)) {
      var k :| 0 <= k < |objects| && objects[k].id == id;
      assert objects[k].Place() in track;
    }
    if Complete(objects, absent, group, lo, hi) {
      var answer := Between(objects, lo, hi);
      forall id: U64 | lo <= id <= hi && Location(group, id) in track
        ensures track[Location(group, id)] in answer
      {
        assert AccountedFor(objects, absent, group, lo, id);
        var k := WantedHas(objects, lo, hi, id);
        assert answer[k] in answer && answer[k] in states[i].groups[group];
        assert answer[k].Place() == Location(group, id);
      }
    } else {
      var id: U64 :| lo <= id <= hi && !Denotes(absent, Location(group, id)) && !AccountedFor(objects, absent, group, lo, id);
    }
  }

  /** Two lists that are exactly the range are the same list. */
  lemma {:induction false} ExactIsUnique(a: seq<Object>, b: seq<Object>, track: Track, group: U64, lo: U64, hi: U64)
    requires IsExactly(a, track, group, lo, hi) && IsExactly(b, track, group, lo, hi)
    ensures a == b
  {
    AscendingIsUnique(a, b);
  }

  lemma EmptyHasNothing(objects: seq<Object>)
    ensures objects == [] <==> forall o :: o !in objects
  {
    if objects != [] {
      assert objects[0] in objects;
    }
  }

  lemma {:induction false} AscendingIsUnique(a: seq<Object>, b: seq<Object>)
    requires Ascending(a) && Ascending(b) && forall o :: o in a <==> o in b
    ensures a == b
    decreases |a|
  {
    if a == [] {
      EmptyHasNothing(b);
    } else {
      var last := a[|a| - 1];
      assert last in b;
      var end := b[|b| - 1];
      assert end in a;
      assert last == end;
      var a', b' := a[..|a| - 1], b[..|b| - 1];
      forall o ensures o in a' <==> o in b' {
        assert o in a' <==> o in a && o != last;
        assert o in b' <==> o in b && o != last;
      }
      AscendingIsUnique(a', b');
    }
  }

  /**
   Whatever the cache was told: once every ID is held or marked absent, the lookup
   answers exactly when no ID that is both lies below a held one that is not.
   */
  lemma AnswersUnlessHidden(objects: seq<Object>, absent: seq<Range>, group: U64, lo: U64, hi: U64)
    requires Ascending(objects)
    requires forall id: U64 | lo <= id <= hi :: Holds(objects, id) || Denotes(absent, Location(group, id))
    ensures Answer(objects, absent, group, lo, hi).None? <==>
            exists a: U64, id: U64 :: lo <= a < id <= hi && Hides(objects, absent, group, a, id)
  {
    if a: U64, id: U64 :| lo <= a < id <= hi && Hides(objects, absent, group, a, id) {
      assert !AccountedFor(objects, absent, group, lo, id);
    }
    if !Complete(objects, absent, group, lo, hi) {
      var id: U64 :| lo <= id <= hi && !Denotes(absent, Location(group, id)) && !AccountedFor(objects, absent, group, lo, id);
      var a: U64 :| lo <= a < id && Holds(objects, a) && Denotes(absent, Location(group, a));
      assert Hides(objects, absent, group, a, id);
    }
  }

  ghost predicate Hides(objects: seq<Object>, absent: seq<Range>, group: U64, a: U64, id: U64) {
    && Holds(objects, a) && Denotes(absent, Location(group, a))
    && Holds(objects, id) && !Denotes(absent, Location(group, id))
  }

  const FIRST := Object(5, 0, [])
  const SECOND := Object(5, 1, [])
  const ONLY_FIRST := Range(Location(5, 0), Location(5, 0))

  /** Both Objects are held and the first is marked absent: the lookup does not answer. */
  lemma SecondIsHidden()
    ensures Ascending([FIRST, SECOND]) && Holds([FIRST, SECOND], 0) && Holds([FIRST, SECOND], 1)
    ensures Answer([FIRST, SECOND], [ONLY_FIRST], 5, 0, 1).None?
  {
    var objects, absent := [FIRST, SECOND], [ONLY_FIRST];
    assert objects[0].id == 0 && objects[1].id == 1;
    assert absent[0].Has(Location(5, 0));
    assert Hides(objects, absent, 5, 0, 1);
    AnswersUnlessHidden(objects, absent, 5, 0, 1);
  }

  lemma InsertedInTurn()
    ensures Inserted([], FIRST) == [FIRST] && Inserted([FIRST], SECOND) == [FIRST, SECOND]
  {
    assert CountBelow([FIRST], 1) == 1;
  }

  lemma MarkedAbsent(s: CacheState)
    requires s.Valid() && s.absent == []
    ensures CacheStep(s, MarkAbsent(ONLY_FIRST.from, ONLY_FIRST.to), s.(absent := [ONLY_FIRST]))
  {
    var merged := [ONLY_FIRST];
    forall l: Location ensures Denotes(merged, l) <==> ONLY_FIRST.Has(l) {
      assert merged[0] == ONLY_FIRST;
    }
    assert IsUnion(merged, [], ONLY_FIRST.from, ONLY_FIRST.to) && Newest(merged) == merged;
  }

  /** A cache that is told of two Objects and then that the first is absent comes to this. */
  lemma HeldAndAbsentHidesLaterObjects() returns (states: seq<CacheState>, ops: seq<CacheOp>)
    ensures IsRun(states, ops) && ops == [Add(FIRST), Add(SECOND), MarkAbsent(ONLY_FIRST.from, ONLY_FIRST.to)]
    ensures
      var s := states[3];
      && s.Valid() && Holds(s.ObjectsOf(5), 0) && Holds(s.ObjectsOf(5), 1)
      && Answer(s.ObjectsOf(5), s.absent, 5, 0, 1).None?
  {
    InsertedInTurn();
    SecondIsHidden();
    var s1 := CacheState(map[5 := [FIRST]], []);
    var s2 := CacheState(map[5 := [FIRST, SECOND]], []);
    MarkedAbsent(s2);
    states, ops := Extend([CacheState(map[], [])], [], Add(FIRST), s1);
    states, ops := Extend(states, ops, Add(SECOND), s2);
    states, ops := Extend(states, ops, MarkAbsent(ONLY_FIRST.from, ONLY_FIRST.to), s2.(absent := [ONLY_FIRST]));
  }

  lemma Extend(states: seq<CacheState>, ops: seq<CacheOp>, op: CacheOp, s: CacheState)
    returns (states': seq<CacheState>, ops': seq<CacheOp>)
    requires IsRun(states, ops) && states[|ops|].Valid() && CacheStep(states[|ops|], op, s)
    ensures IsRun(states', ops') && ops' == ops + [op] && states'[|ops'|] == s
  {
    states', ops' := states + [s], ops + [op];
  }
}
