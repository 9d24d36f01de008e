/**
 That the harm done to a subgroup's streams shows: from every state in which the last ID is
 wrong a receiver can come to misread a stream, and three runs in which one does.
 */
module StreamMisreads {
  import opened Locations
  import opened Delivery
  import opened StreamWrites

  /** Steps that interrupt nothing: the event task goes on or gives up between writes, and cuts end. */
  predicate IsPlain(step: Step) {
    (IsTask(step) && step != GiveUp(true)) || step.Release?
  }

  /** By such steps alone some stream comes to be misread. */
  ghost predicate CanMisread(s: State) {
    exists states, steps :: IsPath(states, steps) && states[0] == s && AnyMisread(states[|steps|])
      && forall k :: 0 <= k < |steps| ==> IsPlain(steps[k])
  }

  lemma MisreadNow(s: State)
    requires AnyMisread(s)
    ensures CanMisread(s)
  {
    assert IsPath([s], []) && [s][0] == s;
  }

  lemma MisreadAfter(s: State, step: Step)
    requires WellFormed(s) && Enabled(s, step) && IsPlain(step) && CanMisread(Next(s, step))
    ensures CanMisread(s)
  {
    var states, steps :| IsPath(states, steps) && states[0] == Next(s, step) && AnyMisread(states[|steps|])
      && forall k :: 0 <= k < |steps| ==> IsPlain(steps[k]);
    var states', steps' := [s] + states, [step] + steps;
    assert states'[|steps'|] == states[|steps|];
    forall n | 0 <= n < |steps'|
      ensures WellFormed(states'[n]) && Enabled(states'[n], steps'[n]) && states'[n + 1] == Next(states'[n], steps'[n]) && IsPlain(steps'[n])
    {
      if n > 0 {
        assert states'[n] == states[n - 1] && steps'[n] == steps[n - 1] && states'[n + 1] == states[n];
      }
    }
    assert IsPath(states', steps');
  }

  /** An Object read relative to the wrong ID is misread once it is written. */
  lemma WrongReadMisreads(s: State)
    requires Inv(s) && s.at.Read? && !s.streams[s.at.k].gone && s.at.previous != s.streams[s.at.k].Last()
    ensures CanMisread(s)
  {
    var s' := Next(s, Write);
    StepKeepsInv(s, Write);
    var writes, writes' := s.streams[s.at.k].writes, s'.streams[s.at.k].writes;
    RightFront(writes');
    assert writes'[..|writes|] == writes;
    ReadsRightExactly(writes');
    assert Misread(s'.streams[s.at.k]);
    MisreadNow(s');
    MisreadAfter(s, Write);
  }

  lemma WrongLastMisreads(s: State)
    requires Inv(s) && s.at.Found? && !s.streams[s.at.k].gone && s.LastId() != s.streams[s.at.k].Last()
    ensures CanMisread(s)
  {
    StepKeepsInv(s, ReadLast);
    WrongReadMisreads(Next(s, ReadLast));
    MisreadAfter(s, ReadLast);
  }

  /** There is an Object to come. */
  ghost predicate Room(s: State, n: nat) {
    s.newest.Some? ==> s.newest.value + n <= U64_MAX
  }

  /** A last ID without a stream is taken for that of the next one. */
  lemma StaleMisreads(s: State)
    requires Inv(s) && s.at.Idle? && s.current.None? && s.LastId().Some? && Room(s, 1)
    ensures CanMisread(s)
  {
    var take := Take(s.newest.value + 1, false);
    var s1 := Next(s, take);
    var s2 := Next(s1, Look);
    var s3 := Next(s2, Open(true));
    var s4 := Next(s3, Head);
    StepKeepsInv(s, take);
    StepKeepsInv(s1, Look);
    StepKeepsInv(s2, Open(true));
    StepKeepsInv(s3, Head);
    WrongLastMisreads(s4);
    MisreadAfter(s3, Head);
    MisreadAfter(s2, Open(true));
    MisreadAfter(s1, Look);
    MisreadAfter(s, take);
  }

  /** A refused write leaves its ID as a last ID without a stream. */
  lemma RefusedMisreads(s: State)
    requires Inv(s) && s.at.Found? && s.streams[s.at.k].gone && Room(s, 1)
    ensures CanMisread(s)
  {
    var s1 := Next(s, ReadLast);
    var s2 := Next(s1, Write);
    var s3 := Next(s2, Unmap);
    var s4 := Next(s3, Record);
    StepKeepsInv(s, ReadLast);
    StepKeepsInv(s1, Write);
    StepKeepsInv(s2, Unmap);
    StepKeepsInv(s3, Record);
    StaleMisreads(s4);
    MisreadAfter(s3, Record);
    MisreadAfter(s2, Unmap);
    MisreadAfter(s1, Write);
    MisreadAfter(s, ReadLast);
  }

  lemma MismatchMisreads(s: State)
    requires Inv(s) && s.at.Idle? && s.cuts == 0 && s.LastId() != s.LastOnStream() && Room(s, 2)
    ensures CanMisread(s)
  {
    if s.current.None? {
      StaleMisreads(s);
    } else {
      assert s.newest.Some?;
      var take := Take(s.newest.value + 1, false);
      var s1 := Next(s, take);
      var s2 := Next(s1, Look);
      StepKeepsInv(s, take);
      StepKeepsInv(s1, Look);
      if s2.streams[s2.at.k].gone {
        RefusedMisreads(s2);
      } else {
        WrongLastMisreads(s2);
      }
      MisreadAfter(s1, Look);
      MisreadAfter(s, take);
    }
  }

  lemma {:induction false} UnmatchedMisreads(s: State)
    requires Inv(s) && !Matched(s) && Room(s, 2)
    ensures CanMisread(s)
    decreases if s.at.Idle? then 0 else 1, s.cuts
  {
    if !s.at.Idle? {
      StepKeepsInv(s, GiveUp(false));
      UnmatchedMisreads(Next(s, GiveUp(false)));
      MisreadAfter(s, GiveUp(false));
    } else if s.cuts > 0 {
      StepKeepsInv(s, Release);
      UnmatchedMisreads(Next(s, Release));
      MisreadAfter(s, Release);
    } else {
      MismatchMisreads(s);
    }
  }

  /**
   Harm shows: after any of the steps that do harm, and with two more Objects to come, the
   event task going on alone and the cuts under way coming to their end are enough for a
   stream to be misread.
   */
  lemma HarmShows(s: State, step: Step)
    requires Inv(s) && Sound(s) && Enabled(s, step) && Harms(s, step) && Room(Next(s, step), 2)
    ensures CanMisread(Next(s, step))
  {
    StaysSoundExactly(s, step);
    var s' := Next(s, step);
    if !AllRight(s') {
      SoundIsRead(s');
      MisreadNow(s');
    } else if !ReadIsRight(s') {
      WrongReadMisreads(s');
    } else {
      UnmatchedMisreads(s');
    }
  }

  // ---- Harmful runs ----

  const HEADED := Stream([], true, false, false)

  /** An update opens the stream of a header held back. */
  lemma OpenedAhead() returns (states: seq<State>, steps: seq<Step>)
    ensures IsRun(states, steps) && |steps| == 3 && steps == [Skip(0, true), TakeHeader, OpenAhead(true)]
    ensures states[3] == State([EMPTY], Some(0), None, 0, {}, false, AheadHeading(0), Some(0), Idle)
  {
    states, steps := Extend([START], [], Skip(0, true), START.(pending := true, newest := Some(0)));
    states, steps := Extend(states, steps, TakeHeader, START.(ahead := Holding, newest := Some(0)));
    states, steps := Extend(states, steps, OpenAhead(true),
      State([EMPTY], Some(0), None, 0, {}, false, AheadHeading(0), Some(0), Idle));
  }

  /** The next Object comes to the stream the connection has, up to its write. */
  lemma FindAndRead(states: seq<State>, steps: seq<Step>, id: U64, previous: Option<U64>)
    returns (states': seq<State>, steps': seq<Step>)
    requires IsRun(states, steps) && Inv(states[|steps|]) && states[|steps|].at.Idle? && states[|steps|].current == Some(0)
    requires states[|steps|].newest.Some? && states[|steps|].newest.value < id && states[|steps|].LastId() == previous
    ensures IsRun(states', steps') && steps' == steps + [Take(id, false), Look, ReadLast]
    ensures states'[|steps'|] == states[|steps|].(newest := Some(id), at := Read(0, id, previous))
  {
    var s := states[|steps|].(newest := Some(id));
    states', steps' := Extend(states, steps, Take(id, false), s.(at := Looking(id)));
    states', steps' := Extend(states', steps', Look, s.(at := Found(0, id)));
    states', steps' := Extend(states', steps', ReadLast, s.(at := Read(0, id, previous)));
    assert steps' == steps + [Take(id, false), Look, ReadLast];
  }

  /** The Object is written before the update has written the header. */
  lemma ObjectBeforeHeader() returns (states: seq<State>, steps: seq<Step>)
    ensures IsRun(states, steps) && steps == [Skip(0, true), TakeHeader, OpenAhead(true), Take(1, false), Look, ReadLast, Write]
    ensures AnyMisread(states[|steps|])
  {
    states, steps := OpenedAhead();
    states, steps := FindAndRead(states, steps, 1, None);
    var s := Next(states[|steps|], Write);
    states, steps := Extend(states, steps, Write, s);
    assert s.streams[0].torn;
  }

  const ONE := Stream([Written(None, 1)], true, false, false)

  /** Object 1 is found, written and recorded after the update opened its stream and before it made its entry. */
  lemma RecordedBeforeListed() returns (states: seq<State>, steps: seq<Step>)
    ensures IsRun(states, steps)
    ensures steps == [Skip(0, true), TakeHeader, OpenAhead(true), HeadAhead, Take(1, false), Look, ReadLast, Write, Record]
    ensures states[|steps|] == State([ONE], Some(0), Some(Some(1)), 0, {}, false, Listing, Some(1), Idle)
  {
    states, steps := OpenedAhead();
    assert [EMPTY][0 := HEADED] == [HEADED];
    states, steps := Extend(states, steps, HeadAhead, State([HEADED], Some(0), None, 0, {}, false, Listing, Some(0), Idle));
    states, steps := FindAndRead(states, steps, 1, None);
    assert HEADED.writes + [Written(None, 1)] == ONE.writes && [HEADED][0 := ONE] == [ONE];
    states, steps := Extend(states, steps, Write, State([ONE], Some(0), None, 0, {}, false, Listing, Some(1), Wrote(0, 1)));
    states, steps := Extend(states, steps, Record, State([ONE], Some(0), Some(Some(1)), 0, {}, false, Listing, Some(1), Idle));
  }

  /** Then the update's entry takes the last ID away, and Object 2 is read as Object 4. */
  lemma UpdateOverwritesLastId() returns (states: seq<State>, steps: seq<Step>)
    ensures IsRun(states, steps)
    ensures steps == [Skip(0, true), TakeHeader, OpenAhead(true), HeadAhead, Take(1, false), Look, ReadLast, Write, Record,
                      ListAhead, Take(2, false), Look, ReadLast, Write]
    ensures
      var s := states[|steps|];
      && |s.streams| == 1 && !s.streams[0].torn && s.streams[0].writes == [Written(None, 1), Written(None, 2)]
      && Decode(Deltas(s.streams[0].writes)) == [1, 4]
  {
    states, steps := RecordedBeforeListed();
    var listed := State([ONE], Some(0), Some(None), 0, {}, false, Nothing, Some(1), Idle);
    states, steps := Extend(states, steps, ListAhead, listed);
    states, steps := FindAndRead(states, steps, 2, None);
    var writes := [Written(None, 1), Written(None, 2)];
    assert ONE.writes + [Written(None, 2)] == writes;
    states, steps := Extend(states, steps, Write, Next(states[|steps|], Write));
    DecodesOneAndFour(writes);
  }

  lemma DecodesOneAndFour(writes: seq<Written>)
    requires writes == [Written(None, 1), Written(None, 2)]
    ensures Ordered(writes) && Decode(Deltas(writes)) == [1, 4]
  {
    assert Deltas(writes) == [1, 2];
    assert [1, 2][..1] == [1] && [1][..0] == [];
    assert Decode([1]) == [1];
  }

  const ZERO := Stream([Written(None, 0)], true, false, false)
  const FIRST := State([HEADED], Some(0), None, 0, {}, false, Nothing, Some(0), Opened(0, 0))

  /** A first Object, on a stream opened for it. */
  lemma OpenFirst() returns (states: seq<State>, steps: seq<Step>)
    ensures IsRun(states, steps) && steps == [Take(0, true), Open(true), Head] && states[|steps|] == FIRST
  {
    assert [EMPTY][0 := HEADED] == [HEADED];
    states, steps := Extend([START], [], Take(0, true), START.(newest := Some(0), at := Opening(0, true)));
    states, steps := Extend(states, steps, Open(true), FIRST.(streams := [EMPTY], at := Heading(0, 0, true)));
    states, steps := Extend(states, steps, Head, FIRST);
  }

  lemma WriteFirst() returns (states: seq<State>, steps: seq<Step>)
    ensures IsRun(states, steps) && steps == [Take(0, true), Open(true), Head, List, ReadLast, Write]
    ensures states[|steps|] == FIRST.(streams := [ZERO], last := Some(None), at := Wrote(0, 0))
  {
    var s := FIRST.(last := Some(None));
    states, steps := OpenFirst();
    states, steps := Extend(states, steps, List, s.(at := Found(0, 0)));
    states, steps := Extend(states, steps, ReadLast, s.(at := Read(0, 0, None)));
    assert [HEADED][0 := ZERO] == [ZERO] && HEADED.writes + [Written(None, 0)] == ZERO.writes;
    states, steps := Extend(states, steps, Write, s.(streams := [ZERO], at := Wrote(0, 0)));
  }

  /** The stream is taken away and reset before the ID is recorded. */
  lemma CutOffFirst() returns (states: seq<State>, steps: seq<Step>)
    ensures IsRun(states, steps)
    ensures steps == [Take(0, true), Open(true), Head, List, ReadLast, Write, Drain, Release, ResetStream(0)]
    ensures states[|steps|] == FIRST.(streams := [ZERO.(gone := true)], current := None, at := Wrote(0, 0))
  {
    states, steps := WriteFirst();
    var s := states[|steps|].(last := None);
    assert [ZERO][0 := ZERO.(gone := true)] == [ZERO.(gone := true)] && {0} - {0} == {};
    states, steps := Extend(states, steps, Drain, s.(cuts := 1));
    states, steps := Extend(states, steps, Release, s.(current := None, doomed := {0}));
    states, steps := Extend(states, steps, ResetStream(0), s.(streams := [ZERO.(gone := true)], current := None));
  }

  /** Its ID stays behind, and the next Object can be misread. */
  lemma CutBetweenWriteAndRecord() returns (states: seq<State>, steps: seq<Step>)
    ensures IsRun(states, steps)
    ensures steps == [Take(0, true), Open(true), Head, List, ReadLast, Write, Drain, Release, ResetStream(0), Record]
    ensures
      var s := states[|steps|];
      Inv(s) && s.at.Idle? && s.current.None? && s.LastId() == Some(0) && CanMisread(s)
  {
    states, steps := CutOffFirst();
    states, steps := Extend(states, steps, Record, states[|steps|].(last := Some(Some(0)), at := Idle));
    RunKeepsInv(states, steps, |steps|);
    StaleMisreads(states[|steps|]);
  }
}
