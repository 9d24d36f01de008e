/**
 The steps of writing a subgroup's Objects taken together: what handling one Object, opening
 a stream ahead, a cut, a stop and a give-up come to when nothing else happens in between.
 */
module StreamRuns {
  import opened Locations
  import opened StreamWrites

  /** The event task with an Object in hand goes on alone until it is done. `opens` says whether a stream can be opened. */
  function Alone(s: State, opens: bool): (s': State)
    requires WellFormed(s)
    ensures s'.at.Idle?
    decreases StepsLeft(s.at)
  {
    if s.at.Idle? then s
    else
      var step := Onward(s.at, opens);
      TaskKeepsWellFormed(s, step);
      Alone(ByTask(s, step), opens)
  }

  /** The step of the event task that comes next. */
  function Onward(at: Progress, opens: bool): Step
    requires !at.Idle?
  {
    match at
    case Looking(_) => Look
    case Opening(_, _) => Open(opens)
    case Heading(_, _, _) => Head
    case Opened(_, _) => List
    case Found(_, _) => ReadLast
    case Read(_, _, _) => Write
    case Wrote(_, _) => Record
    case _ => Unmap
  }

  function StepsLeft(at: Progress): nat {
    match at
    case Idle => 0
    case HeadFailed => 1
    case Wrote(_, _) => 1
    case Refused(_, _) => 2
    case Read(_, _, _) => 3
    case Found(_, _) => 4
    case Opened(_, _) => 5
    case Heading(_, _, _) => 6
    case Opening(_, _) => 7
    case Looking(_) => 8
  }

  /** What is written to a stream: the Object, relative to the last ID there is an entry for. */
  function With(stream: Stream, previous: Option<U64>, id: U64): Stream {
    stream.(writes := stream.writes + [Written(previous, id)])
  }

  lemma WroteAlone(s: State, opens: bool)
    requires WellFormed(s) && s.at.Wrote?
    ensures Alone(s, opens) == s.(last := Some(Some(s.at.id)), at := Idle)
  {
    var s1 := ByTask(s, Record);
    assert Alone(s, opens) == Alone(s1, opens) == s1;
  }

  /** A write that was refused: the connection lets go of the stream, and the ID is recorded. */
  lemma RefusedAlone(s: State, opens: bool)
    requires WellFormed(s) && s.at.Refused?
    ensures Alone(s, opens) == s.(current := None, last := Some(Some(s.at.id)), at := Idle)
  {
    var s1 := ByTask(s, Unmap);
    assert Alone(s, opens) == Alone(s1, opens);
    WroteAlone(s1, opens);
  }

  /** The stream as the Object leaves it. */
  function Appended(stream: Stream, previous: Option<U64>, id: U64): Stream {
    With(stream, previous, id).(torn := stream.torn || !stream.headed)
  }

  lemma ReadAlone(s: State, opens: bool)
    requires WellFormed(s) && s.at.Read?
    ensures
      var k, id := s.at.k, s.at.id;
      Alone(s, opens) ==
        if s.streams[k].gone then s.(current := None, last := Some(Some(id)), at := Idle)
        else s.(streams := s.streams[k := Appended(s.streams[k], s.at.previous, id)], last := Some(Some(id)), at := Idle)
  {
    var s1 := ByTask(s, Write);
    assert Alone(s, opens) == Alone(s1, opens);
    if s.streams[s.at.k].gone {
      RefusedAlone(s1, opens);
    } else {
      WroteAlone(s1, opens);
    }
  }

  lemma ReadyAlone(s: State, opens: bool)
    requires WellFormed(s) && (s.at.Found? || s.at.Opened?)
    ensures
      var k, id, previous := s.at.k, s.at.id, if s.at.Opened? then None else s.LastId();
      Alone(s, opens) ==
        if s.streams[k].gone then s.(current := None, last := Some(Some(id)), at := Idle)
        else s.(streams := s.streams[k := Appended(s.streams[k], previous, id)], last := Some(Some(id)), at := Idle)
  {
    var s1 := if s.at.Opened? then ByTask(s, List) else s;
    var s2 := ByTask(s1, ReadLast);
    assert Alone(s, opens) == Alone(s1, opens) == Alone(s2, opens);
    ReadAlone(s2, opens);
  }

  /** Nothing stands in the way of handling the Object. */
  ghost predicate Comes(s: State, id: U64, first: bool) {
    && WellFormed(s) && s.at.Idle? && (s.newest.Some? ==> s.newest.value < id) && (first ==> s.newest.None?)
    && (s.current.Some? ==> s.streams[s.current.value].headed && !s.streams[s.current.value].torn)
  }

  /**
   Handled alone, an Object is appended to the stream there is, relative to the last ID, or to
   a new one that starts with its header, and its ID becomes the last; if no stream can be
   opened nothing is written. On a stream that is gone the connection lets go of it, and
   the ID is recorded all the same. The first Object of a subgroup is relative to nothing.
   */
  lemma ObjectAlone(s: State, id: U64, first: bool, opens: bool)
    requires Comes(s, id, first)
    ensures
      var s0, s', previous := s.(newest := Some(id)), Alone(ByTask(s, Take(id, first)), opens), if first then None else s.LastId();
      s' ==
        if s.current.Some? && s.streams[s.current.value].gone then s0.(current := None, last := Some(Some(id)))
        else if s.current.Some? then
          s0.(streams := s.streams[s.current.value := With(s.streams[s.current.value], previous, id)], last := Some(Some(id)))
        else if opens then
          s0.(streams := s.streams + [Stream([Written(previous, id)], true, false, false)], current := Some(|s.streams|), last := Some(Some(id)))
        else s0
  {
    var s1 := ByTask(s, Take(id, first));
    if s.current.Some? {
      var s2 := if first then ByTask(s1, Open(opens)) else ByTask(s1, Look);
      assert Alone(s1, opens) == Alone(s2, opens);
      ReadyAlone(s2, opens);
    } else {
      var s2 := if first then s1 else ByTask(s1, Look);
      assert Alone(s1, opens) == Alone(s2, opens);
      OpeningAlone(s2, opens);
    }
  }

  lemma OpeningAlone(s: State, opens: bool)
    requires WellFormed(s) && s.at.Opening? && s.current.None?
    ensures
      var id, previous := s.at.id, if s.at.first then None else s.LastId();
      Alone(s, opens) ==
        if opens then
          s.(streams := s.streams + [Stream([Written(previous, id)], true, false, false)], current := Some(|s.streams|),
             last := Some(Some(id)), at := Idle)
        else s.(at := Idle)
  {
    if opens {
      var s1 := ByTask(s, Open(true));
      var s2 := ByTask(s1, Head);
      assert Alone(s, opens) == Alone(s1, opens) == Alone(s2, opens);
      ReadyAlone(s2, opens);
      var headed := Stream([], true, false, false);
      var previous := if s.at.first then None else s.LastId();
      assert s2.streams == s.streams + [headed];
      assert With(headed, previous, s.at.id) == Stream([Written(previous, s.at.id)], true, false, false);
      assert s2.streams[|s.streams| := With(headed, previous, s.at.id)] == s.streams + [With(headed, previous, s.at.id)];
    }
  }

  /** The event task can go on at every place, and only there: what comes next is enabled, and no other of its steps but giving up. */
  lemma OnwardExactly(s: State, step: Step)
    requires WellFormed(s) && IsTask(step) && !step.GiveUp? && !step.Take? && !step.Skip?
    ensures Enabled(s, step) <==> !s.at.Idle? && exists opens :: step == Onward(s.at, opens)
  {
    if !s.at.Idle? && Enabled(s, step) {
      assert step == Onward(s.at, step.Open? && step.opens);
    }
  }

  /** Giving up drops the Object and nothing else, but for a header or a write left half done on a stream that is there. */
  lemma GiveUpLeaves(s: State, partly: bool)
    requires WellFormed(s)
    ensures Enabled(s, GiveUp(partly)) <==> !s.at.Idle? && (partly ==> s.at.Heading? || s.at.Read?)
    ensures Enabled(s, GiveUp(false)) ==> Next(s, GiveUp(false)) == s.(at := Idle)
    ensures Enabled(s, GiveUp(true)) ==>
      Next(s, GiveUp(true)) == s.(at := Idle, streams := s.streams[s.at.k := s.streams[s.at.k].(torn := s.streams[s.at.k].torn || !s.streams[s.at.k].gone)])
  {
    if Enabled(s, GiveUp(true)) && s.streams[s.at.k].gone {
      assert s.streams[s.at.k := s.streams[s.at.k]] == s.streams;
    }
  }

  // ---- An update, a cut and a stop ----

  /** An update alone opens a stream with its header, or takes the one there is, and enters no last ID for it; without a stream it drops the header. */
  lemma UpdateAlone(s: State, opens: bool)
    requires WellFormed(s) && s.pending && s.ahead.Nothing?
    ensures Enabled(s, TakeHeader)
    ensures
      var s0 := s.(pending := false);
      var s1 := Next(s, TakeHeader);
      && Enabled(s1, OpenAhead(opens))
      && var s2 := Next(s1, OpenAhead(opens));
      if s.current.Some? then Enabled(s2, ListAhead) && Next(s2, ListAhead) == s0.(last := Some(None))
      else if !opens then s2 == s0
      else
        && Enabled(s2, HeadAhead) && Enabled(Next(s2, HeadAhead), ListAhead)
        && Next(Next(s2, HeadAhead), ListAhead) ==
             s0.(streams := s.streams + [Stream([], true, false, false)], current := Some(|s.streams|), last := Some(None))
  {
  }

  /** If the new stream is gone before the header is written, the connection lets go of whatever stream it has, and no entry is made. */
  lemma HeaderAheadFails(s: State)
    requires WellFormed(s) && s.ahead.AheadHeading? && s.streams[s.ahead.k].gone
    ensures Enabled(s, HeadAhead) && Enabled(Next(s, HeadAhead), UnmapAhead)
    ensures Next(Next(s, HeadAhead), UnmapAhead) == s.(current := None, ahead := Nothing)
  {
  }

  /** The same of the event task's own header, with which the Object is dropped. */
  lemma HeaderFails(s: State)
    requires WellFormed(s) && s.at.Heading? && s.streams[s.at.k].gone
    ensures Enabled(s, Head) && Enabled(Next(s, Head), Unmap)
    ensures Next(Next(s, Head), Unmap) == s.(current := None, at := Idle)
  {
  }

  /** A cut alone leaves no stream and no last ID; the stream there was is gone. */
  lemma CutAlone(s: State)
    requires WellFormed(s) && s.last.Some? && s.cuts == 0 && s.doomed == {}
    ensures Enabled(s, Drain) && Enabled(Next(s, Drain), Release)
    ensures
      var s1 := Next(Next(s, Drain), Release);
      if s.current.Some? then
        && Enabled(s1, ResetStream(s.current.value))
        && Next(s1, ResetStream(s.current.value)) ==
             s.(current := None, last := None, streams := s.streams[s.current.value := s.streams[s.current.value].(gone := true)])
      else s1 == s.(last := None)
  {
  }

  /** A stop by the peer changes nothing but that nothing more arrives on the stream; a header that is dropped is just not there any more. */
  lemma StopLeaves(s: State, k: nat)
    requires WellFormed(s) && k < |s.streams|
    ensures Next(s, PeerStops(k)) == s.(streams := s.streams[k := s.streams[k].(gone := true)])
    ensures s.pending ==> Next(s, DropPending) == s.(pending := false)
  {
  }

  // ---- Objects not delivered ----

  /** An Object that is skipped leaves everything but what is the newest, and its header held back if it is to be. */
  lemma SkipLeaves(s: State, id: U64, hold: bool)
    requires WellFormed(s) && Enabled(s, Skip(id, hold))
    ensures Next(s, Skip(id, hold)) == s.(newest := Some(id), pending := s.pending || hold)
  {
  }

  /** The IDs that come to the event task ascend, and what came before is never newer. */
  lemma {:induction false} IdsAscend(states: seq<State>, steps: seq<Step>, n: nat)
    requires IsRun(states, steps) && n < |states|
    ensures WellFormed(states[n])
    ensures forall k :: 0 <= k < n && (steps[k].Take? || steps[k].Skip?) ==>
      states[n].newest.Some? && steps[k].id <= states[n].newest.value
    ensures n < |steps| && (steps[n].Take? || steps[n].Skip?) ==>
      forall k :: 0 <= k < n && (steps[k].Take? || steps[k].Skip?) ==> steps[k].id < steps[n].id
  {
    if n > 0 {
      IdsAscend(states, steps, n - 1);
      KeepsWellFormed(states[n - 1], steps[n - 1]);
      NewestGrows(states[n - 1], steps[n - 1], states[n]);
    }
  }

  lemma NewestGrows(s: State, step: Step, s': State)
    requires WellFormed(s) && Enabled(s, step) && s' == Next(s, step)
    ensures s'.newest == if step.Take? || step.Skip? then Some(step.id) else s.newest
    ensures (step.Take? || step.Skip?) && s.newest.Some? ==> s.newest.value < step.id
  {
  }
}
