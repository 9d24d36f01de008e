/**
 Writing one subgroup's Objects when the writing can be interrupted.

 The event task looks for the stream, opens it with its header if there is none, reads the
 last Object ID, writes, and records the new last ID. An update that sets Forward State to 1
 opens the stream of a header held back ahead of its next Object, on a task of its own. A
 hard switch of another subscription takes the last ID, takes the stream away and resets
 it; the peer can stop the stream; and the event loop can give an Object up. Each section
 under one lock is a step of its own, and a run is any interleaving of them, until the
 subgroup's stream ends upstream.
 */
module StreamWrites {
  import opened Locations
  import opened Delivery

  /** One Object written: its ID, and the ID it was written relative to. */
  datatype Written = Written(previous: Option<U64>, id: U64)

  /**
   `headed` says that the header is written, `gone` that nothing more arrives, and `torn`
   that a write was left half done or came before the header.
   */
  datatype Stream = Stream(writes: seq<Written>, headed: bool, gone: bool, torn: bool) {
    function Last(): Option<U64> {
      LastOf(writes)
    }
  }

  const EMPTY := Stream([], false, false, false)

  /** Where the event task stands with an Object. */
  datatype Progress =
    | Idle
    | Looking(id: U64)
    /** `first` for the subgroup's first Object, which came with the header. */
    | Opening(id: U64, first: bool)
    | Heading(k: nat, id: U64, first: bool)
    /** The header could not be written; the connection's entry is still to go. */
    | HeadFailed
    /** The stream is there for the first Object; its last-ID entry is still to be made. */
    | Opened(k: nat, id: U64)
    | Found(k: nat, id: U64)
    | Read(k: nat, id: U64, previous: Option<U64>)
    /** The write was refused; the connection's entry is still to go. */
    | Refused(k: nat, id: U64)
    | Wrote(k: nat, id: U64)
  {
    predicate HasStream() {
      Heading? || Opened? || Found? || Read? || Refused? || Wrote?
    }

    predicate HasObject() {
      !Idle? && !HeadFailed?
    }

    predicate IsFirst() {
      Opened? || (Opening? && first) || (Heading? && first)
    }
  }

  /** Where an update stands with the header it took. */
  datatype Ahead = Nothing | Holding | AheadHeading(k: nat) | AheadFailed | Listing

  /**
   `current` is the stream the connection has for the subgroup and `last` its entry among
   the last IDs. `cuts` have taken the entry and are still to take the stream away, and
   `doomed` are the streams taken away and still to be reset. `pending` says that the
   header was held back, and `newest` is the newest ID the task has come to.
   */
  datatype State = State(
    streams: seq<Stream>, current: Option<nat>, last: Option<Option<U64>>, cuts: nat, doomed: set<nat>,
    pending: bool, ahead: Ahead, newest: Option<U64>, at: Progress)
  {
    function LastId(): Option<U64> {
      if last.Some? then last.value else None
    }

    /** What the last ID should be: the last one written to the stream there is. */
    function LastOnStream(): Option<U64> {
      if current.Some? && current.value < |streams| then streams[current.value].Last() else None
    }
  }

  datatype Step =
    /** An Object is not delivered; its header is held back if `hold`. */
    | Skip(id: U64, hold: bool)
    /** An Object passed every check. */
    | Take(id: U64, first: bool)
    | Look
    | Open(opens: bool)
    | Head
    | List
    | ReadLast
    | Write
    /** The connection's entry goes after a failed header or a refused write. */
    | Unmap
    | Record
    /** The event loop gives the Object up, perhaps in the middle of writing. */
    | GiveUp(partly: bool)
    /** Another stream's header, or a delivery, does away with the header held back. */
    | DropPending
    | TakeHeader
    | OpenAhead(opens: bool)
    | HeadAhead
    | UnmapAhead
    | ListAhead
    | Drain
    | Release
    | ResetStream(k: nat)
    | PeerStops(k: nat)

  predicate Enabled(s: State, step: Step) {
    match step
    case Skip(id, hold) => s.at.Idle? && (s.newest.Some? ==> s.newest.value < id) && (hold ==> s.newest.None?)
    case Take(id, first) => s.at.Idle? && (s.newest.Some? ==> s.newest.value < id) && (first ==> s.newest.None?)
    case Look => s.at.Looking?
    case Open(_) => s.at.Opening?
    case Head => s.at.Heading?
    case List => s.at.Opened?
    case ReadLast => s.at.Found?
    case Write => s.at.Read?
    case Unmap => s.at.HeadFailed? || s.at.Refused?
    case Record => s.at.Wrote?
    case GiveUp(partly) => !s.at.Idle? && (partly ==> s.at.Read? || s.at.Heading?)
    case DropPending => s.pending
    case TakeHeader => s.pending && s.ahead.Nothing?
    case OpenAhead(_) => s.ahead.Holding?
    case HeadAhead => s.ahead.AheadHeading?
    case UnmapAhead => s.ahead.AheadFailed?
    case ListAhead => s.ahead.Listing?
    case Drain => s.last.Some?
    case Release => s.cuts > 0
    case ResetStream(k) => k in s.doomed
    case PeerStops(k) => k < |s.streams|
  }

  predicate WellFormed(s: State) {
    && (s.current.Some? ==> s.current.value < |s.streams|)
    && (s.at.HasStream() ==> s.at.k < |s.streams|)
    && (s.ahead.AheadHeading? ==> s.ahead.k < |s.streams|)
    && (forall k :: k in s.doomed ==> k < |s.streams|)
  }

  function WithStream(s: State, k: nat, stream: Stream): State
    requires k < |s.streams|
  {
    s.(streams := s.streams[k := stream])
  }

  /** What comes after the stream is there. */
  function Ready(k: nat, id: U64, first: bool): Progress {
    if first then Opened(k, id) else Found(k, id)
  }

  /** The steps of the event task. */
  predicate IsTask(step: Step) {
    || step.Skip? || step.Take? || step.Look? || step.Open? || step.Head? || step.List? || step.ReadLast?
    || step.Write? || step.Unmap? || step.Record? || step.GiveUp?
  }

  /** What a step of the event task does. */
  function ByTask(s: State, step: Step): State
    requires WellFormed(s) && Enabled(s, step) && IsTask(step)
  {
    match step
    case Skip(id, hold) => s.(newest := Some(id), pending := s.pending || hold)
    case Take(id, first) => s.(newest := Some(id), at := if first then Opening(id, true) else Looking(id))
    case Look => s.(at := if s.current.Some? then Found(s.current.value, s.at.id) else Opening(s.at.id, false))
    case Open(opens) =>
      if s.current.Some? then s.(at := Ready(s.current.value, s.at.id, s.at.first))
      else if !opens then s.(at := Idle)
      else
        s.(streams := s.streams + [EMPTY], current := Some(|s.streams|), at := Heading(|s.streams|, s.at.id, s.at.first))
    case Head =>
      var stream := s.streams[s.at.k];
      if stream.gone then s.(at := HeadFailed)
      else WithStream(s, s.at.k, stream.(headed := true)).(at := Ready(s.at.k, s.at.id, s.at.first))
    case List => s.(last := Some(None), at := Found(s.at.k, s.at.id))
    case ReadLast => s.(at := Read(s.at.k, s.at.id, s.LastId()))
    case Write =>
      var stream := s.streams[s.at.k];
      if stream.gone then s.(at := Refused(s.at.k, s.at.id))
      else
        WithStream(s, s.at.k, stream.(
          writes := stream.writes + [Written(s.at.previous, s.at.id)], torn := stream.torn || !stream.headed)).(
          at := Wrote(s.at.k, s.at.id))
    case Unmap => s.(current := None, at := if s.at.HeadFailed? then Idle else Wrote(s.at.k, s.at.id))
    case Record => s.(last := Some(Some(s.at.id)), at := Idle)
    case GiveUp(partly) =>
      if partly && !s.streams[s.at.k].gone
      then WithStream(s, s.at.k, s.streams[s.at.k].(torn := true)).(at := Idle)
      else s.(at := Idle)
  }

  /** What a step of an update, a cut or the peer does. */
  function ByOthers(s: State, step: Step): State
    requires WellFormed(s) && Enabled(s, step) && !IsTask(step)
  {
    match step
    case DropPending => s.(pending := false)
    case TakeHeader => s.(pending := false, ahead := Holding)
    case OpenAhead(opens) =>
      if s.current.Some? then s.(ahead := Listing)
      else if !opens then s.(ahead := Nothing)
      else s.(streams := s.streams + [EMPTY], current := Some(|s.streams|), ahead := AheadHeading(|s.streams|))
    case HeadAhead =>
      var stream := s.streams[s.ahead.k];
      if stream.gone then s.(ahead := AheadFailed)
      else WithStream(s, s.ahead.k, stream.(headed := true)).(ahead := Listing)
    case UnmapAhead => s.(current := None, ahead := Nothing)
    case ListAhead => s.(last := Some(None), ahead := Nothing)
    case Drain => s.(last := None, cuts := s.cuts + 1)
    case Release =>
      s.(current := None, cuts := s.cuts - 1, doomed := s.doomed + if s.current.Some? then {s.current.value} else {})
    case ResetStream(k) => WithStream(s, k, s.streams[k].(gone := true)).(doomed := s.doomed - {k})
    case PeerStops(k) => WithStream(s, k, s.streams[k].(gone := true))
  }

  function Next(s: State, step: Step): State
    requires WellFormed(s) && Enabled(s, step)
  {
    if IsTask(step) then ByTask(s, step) else ByOthers(s, step)
  }

  // ---- What a receiver makes of a stream ----

  ghost predicate Ordered(writes: seq<Written>) {
    forall k :: 0 <= k < |writes| ==> writes[k].previous.Some? ==> writes[k].previous.value < writes[k].id
  }

  function Deltas(writes: seq<Written>): (deltas: seq<U64>)
    requires Ordered(writes)
    ensures |deltas| == |writes|
    ensures forall k :: 0 <= k < |writes| ==> deltas[k] == Delta(writes[k].previous, writes[k].id)
  {
    seq(|writes|, k requires 0 <= k < |writes| => Delta(writes[k].previous, writes[k].id))
  }

  function Ids(writes: seq<Written>): (ids: seq<U64>)
    ensures |ids| == |writes| && forall k :: 0 <= k < |writes| ==> ids[k] == writes[k].id
  {
    seq(|writes|, k requires 0 <= k < |writes| => writes[k].id)
  }

  function LastOf(writes: seq<Written>): Option<U64> {
    if writes == [] then None else Some(writes[|writes| - 1].id)
  }

  /** Every Object is written relative to the one before it. */
  ghost predicate Right(writes: seq<Written>) {
    forall k :: 0 <= k < |writes| ==> writes[k].previous == LastOf(writes[..k])
  }

  /** What the last Object is read as, if those before it are read right. */
  function ReadAfter(last: Option<U64>, w: Written): nat
    requires w.previous.Some? ==> w.previous.value < w.id
  {
    if last.Some? then last.value + Delta(w.previous, w.id) + 1 else Delta(w.previous, w.id)
  }

  lemma ReadAfterIsRight(last: Option<U64>, w: Written)
    requires w.previous.Some? ==> w.previous.value < w.id
    ensures ReadAfter(last, w) == w.id <==> w.previous == last
  {
  }

  lemma DecodesOneMore(writes: seq<Written>)
    requires writes != [] && Ordered(writes)
    ensures
      var n := |writes| - 1;
      var front := writes[..n];
      && Ordered(front)
      && |Decode(Deltas(writes))| == |writes| && Decode(Deltas(writes))[..n] == Decode(Deltas(front))
      && (Decode(Deltas(front)) == Ids(front) ==> Decode(Deltas(writes))[n] == ReadAfter(LastOf(front), writes[n]))
  {
    var n := |writes| - 1;
    var front := writes[..n];
    assert Deltas(writes)[..n] == Deltas(front);
    if n > 0 {
      assert Ids(front)[n - 1] == front[n - 1].id;
    }
  }

  lemma SameExactly(a: seq<int>, b: seq<int>, n: nat)
    requires |a| == |b| == n + 1
    ensures a == b <==> a[..n] == b[..n] && a[n] == b[n]
  {
    assert a == a[..n] + [a[n]] && b == b[..n] + [b[n]];
  }

  /** A receiver reads the IDs that were meant exactly if every Object is written so. */
  lemma {:induction false} ReadsRightExactly(writes: seq<Written>)
    requires Ordered(writes)
    ensures Decode(Deltas(writes)) == Ids(writes) <==> Right(writes)
    decreases |writes|
  {
    if writes != [] {
      var n := |writes| - 1;
      var front := writes[..n];
      DecodesOneMore(writes);
      ReadsRightExactly(front);
      RightFront(writes);
      ReadAfterIsRight(LastOf(front), writes[n]);
      assert Ids(writes)[..n] == Ids(front);
      SameExactly(Decode(Deltas(writes)), Ids(writes), n);
    }
  }

  lemma RightFront(writes: seq<Written>)
    requires writes != []
    ensures
      var n := |writes| - 1;
      Right(writes) <==> Right(writes[..n]) && writes[n].previous == LastOf(writes[..n])
  {
    var n := |writes| - 1;
    assert forall k :: 0 <= k <= n ==> writes[..n][..k] == writes[..k];
  }

  // ---- When the last ID is the right one ----

  /** Before the first Object there is nothing. */
  ghost predicate Untouched(s: State) {
    (s.newest.None? || s.at.IsFirst()) ==>
      s.LastId().None? && forall k :: 0 <= k < |s.streams| ==> s.streams[k].writes == []
  }

  /** IDs only grow. */
  ghost predicate Ascends(s: State) {
    && (forall k :: 0 <= k < |s.streams| ==> Ordered(s.streams[k].writes))
    && (s.LastId().Some? ==> s.newest.Some? && s.LastId().value <= s.newest.value)
    && (s.at.HasObject() ==> s.newest == Some(s.at.id) && (s.LastId().Some? ==> s.LastId().value < s.at.id))
    && (s.at.Read? && s.at.previous.Some? ==> s.at.previous.value < s.at.id)
  }

  /** What was just written is the last on its stream. */
  ghost predicate JustWritten(s: State) {
    s.at.Wrote? && s.current == Some(s.at.k) ==> s.LastOnStream() == Some(s.at.id)
  }

  ghost predicate Inv(s: State) {
    WellFormed(s) && Untouched(s) && Ascends(s) && JustWritten(s)
  }

  /** The last ID is that of the stream there is, or about to be; while a stream is to be taken away there is none. */
  ghost predicate Matched(s: State) {
    if s.cuts > 0 then s.LastId().None?
    else (s.at.Wrote? && s.current == Some(s.at.k)) || s.LastId() == s.LastOnStream()
  }

  ghost predicate ReadIsRight(s: State)
    requires WellFormed(s)
  {
    s.at.Read? && !s.streams[s.at.k].gone ==> s.at.previous == s.streams[s.at.k].Last()
  }

  ghost predicate AllRight(s: State) {
    forall k :: 0 <= k < |s.streams| ==> Right(s.streams[k].writes) && !s.streams[k].torn
  }

  ghost predicate Sound(s: State)
    requires WellFormed(s)
  {
    Matched(s) && ReadIsRight(s) && AllRight(s)
  }

  /**
   The steps that do harm: reading a last ID that is not that of the stream in hand;
   writing before the header; giving up within a write, or between a write and its
   recording; recording after the stream was taken away or before a cut takes it away;
   letting go of a stream while there is a last ID; and an update's entry over a last ID
   that no recording is about to replace.
   */
  ghost predicate Harms(s: State, step: Step)
    requires WellFormed(s) && Enabled(s, step)
  {
    match step
    case ReadLast => !s.streams[s.at.k].gone && s.LastId() != s.streams[s.at.k].Last()
    case Write => !s.streams[s.at.k].gone && !s.streams[s.at.k].headed
    case Unmap => s.LastId().Some?
    case Record => s.cuts > 0 || s.current != Some(s.at.k)
    case GiveUp(partly) =>
      || (partly && !s.streams[s.at.k].gone)
      || (s.at.Wrote? && s.cuts == 0 && s.current == Some(s.at.k))
    case UnmapAhead => s.LastId().Some?
    case ListAhead => s.cuts == 0 && s.LastOnStream().Some? && !(s.at.Wrote? && s.current == Some(s.at.k))
    case _ => false
  }

  lemma TaskKeepsWellFormed(s: State, step: Step)
    requires WellFormed(s) && Enabled(s, step) && IsTask(step)
    ensures WellFormed(ByTask(s, step)) && |s.streams| <= |ByTask(s, step).streams|
  {
  }

  lemma OthersKeepWellFormed(s: State, step: Step)
    requires WellFormed(s) && Enabled(s, step) && !IsTask(step)
    ensures WellFormed(ByOthers(s, step)) && |s.streams| <= |ByOthers(s, step).streams|
  {
  }

  lemma KeepsWellFormed(s: State, step: Step)
    requires WellFormed(s) && Enabled(s, step)
    ensures WellFormed(Next(s, step))
  {
    if IsTask(step) {
      TaskKeepsWellFormed(s, step);
    } else {
      OthersKeepWellFormed(s, step);
    }
  }

  lemma TaskKeepsUntouched(s: State, step: Step)
    requires WellFormed(s) && Untouched(s) && Ascends(s) && Enabled(s, step) && IsTask(step)
    ensures Untouched(ByTask(s, step))
  {
  }

  lemma OthersKeepUntouched(s: State, step: Step)
    requires WellFormed(s) && Untouched(s) && Ascends(s) && Enabled(s, step) && !IsTask(step)
    ensures Untouched(ByOthers(s, step))
  {
  }

  lemma TaskKeepsAscends(s: State, step: Step)
    requires WellFormed(s) && Ascends(s) && Enabled(s, step) && IsTask(step)
    ensures Ascends(ByTask(s, step))
  {
  }

  lemma OthersKeepAscends(s: State, step: Step)
    requires WellFormed(s) && Ascends(s) && Enabled(s, step) && !IsTask(step)
    ensures Ascends(ByOthers(s, step))
  {
  }

  lemma KeepsJustWritten(s: State, step: Step)
    requires WellFormed(s) && JustWritten(s) && Enabled(s, step)
    ensures JustWritten(Next(s, step))
  {
  }

  lemma StepKeepsInv(s: State, step: Step)
    requires Inv(s) && Enabled(s, step)
    ensures Inv(Next(s, step))
  {
    KeepsWellFormed(s, step);
    KeepsJustWritten(s, step);
    if IsTask(step) {
      TaskKeepsUntouched(s, step);
      TaskKeepsAscends(s, step);
    } else {
      OthersKeepUntouched(s, step);
      OthersKeepAscends(s, step);
    }
  }

  lemma TaskKeepsMatched(s: State, step: Step)
    requires WellFormed(s) && Untouched(s) && JustWritten(s) && Matched(s) && Enabled(s, step) && IsTask(step)
    ensures Harms(s, step) || Matched(ByTask(s, step))
  {
  }

  lemma OthersKeepMatched(s: State, step: Step)
    requires WellFormed(s) && Untouched(s) && JustWritten(s) && Matched(s) && Enabled(s, step) && !IsTask(step)
    ensures Harms(s, step) || Matched(ByOthers(s, step))
  {
  }

  lemma TaskKeepsRead(s: State, step: Step)
    requires WellFormed(s) && ReadIsRight(s) && Enabled(s, step) && IsTask(step) && !Harms(s, step)
    ensures WellFormed(ByTask(s, step)) && ReadIsRight(ByTask(s, step))
  {
    KeepsWellFormed(s, step);
  }

  lemma OthersKeepRead(s: State, step: Step)
    requires WellFormed(s) && ReadIsRight(s) && Enabled(s, step) && !IsTask(step)
    ensures WellFormed(ByOthers(s, step)) && ReadIsRight(ByOthers(s, step))
  {
    KeepsWellFormed(s, step);
  }

  lemma HarmBreaks(s: State, step: Step)
    requires Inv(s) && Sound(s) && Enabled(s, step) && Harms(s, step)
    ensures WellFormed(Next(s, step)) && !Sound(Next(s, step))
  {
    KeepsWellFormed(s, step);
    if (step.GiveUp? || step.Write?) && !s.at.Wrote? {
      assert Next(s, step).streams[s.at.k].torn;
    }
  }

  /** Only a write adds to a stream, and only a harm tears one. */
  lemma TaskKeepsWrites(s: State, step: Step, k: nat)
    requires WellFormed(s) && AllRight(s) && Enabled(s, step) && IsTask(step) && !step.Write? && !Harms(s, step)
    requires k < |ByTask(s, step).streams|
    ensures Right(ByTask(s, step).streams[k].writes) && !ByTask(s, step).streams[k].torn
  {
  }

  lemma OthersKeepWrites(s: State, step: Step, k: nat)
    requires WellFormed(s) && AllRight(s) && Enabled(s, step) && !IsTask(step) && k < |ByOthers(s, step).streams|
    ensures Right(ByOthers(s, step).streams[k].writes) && !ByOthers(s, step).streams[k].torn
  {
  }

  lemma WriteStaysRight(s: State)
    requires WellFormed(s) && AllRight(s) && ReadIsRight(s) && Enabled(s, Write) && !Harms(s, Write)
    ensures AllRight(ByTask(s, Write))
  {
    var s' := ByTask(s, Write);
    if !s.streams[s.at.k].gone {
      var writes, writes' := s.streams[s.at.k].writes, s'.streams[s.at.k].writes;
      RightFront(writes');
      assert writes'[..|writes|] == writes;
    }
  }

  lemma WritesStayRight(s: State, step: Step)
    requires Inv(s) && Sound(s) && Enabled(s, step) && !Harms(s, step)
    ensures AllRight(Next(s, step))
  {
    if step.Write? {
      WriteStaysRight(s);
    } else {
      forall k | 0 <= k < |Next(s, step).streams| ensures Right(Next(s, step).streams[k].writes) && !Next(s, step).streams[k].torn {
        if IsTask(step) {
          TaskKeepsWrites(s, step, k);
        } else {
          OthersKeepWrites(s, step, k);
        }
      }
    }
  }

  /** A step keeps every stream readable and the last ID right exactly if it does no such harm. */
  lemma StaysSoundExactly(s: State, step: Step)
    requires Inv(s) && Sound(s) && Enabled(s, step)
    ensures Inv(Next(s, step)) && (Sound(Next(s, step)) <==> !Harms(s, step))
  {
    StepKeepsInv(s, step);
    if Harms(s, step) {
      HarmBreaks(s, step);
    } else {
      if IsTask(step) {
        TaskKeepsMatched(s, step);
        TaskKeepsRead(s, step);
      } else {
        OthersKeepMatched(s, step);
        OthersKeepRead(s, step);
      }
      WritesStayRight(s, step);
    }
  }

  // ---- Runs without harm ----

  const START := State([], None, None, 0, {}, false, Nothing, None, Idle)

  ghost predicate IsPath(states: seq<State>, steps: seq<Step>) {
    && |states| == |steps| + 1
    && forall n :: 0 <= n < |steps| ==>
         WellFormed(states[n]) && Enabled(states[n], steps[n]) && states[n + 1] == Next(states[n], steps[n])
  }

  ghost predicate IsRun(states: seq<State>, steps: seq<Step>) {
    IsPath(states, steps) && states[0] == START
  }

  /** A receiver of the stream reads something else than was meant. */
  ghost predicate Misread(stream: Stream) {
    stream.torn || (Ordered(stream.writes) && Decode(Deltas(stream.writes)) != Ids(stream.writes))
  }

  ghost predicate AnyMisread(s: State) {
    exists k :: 0 <= k < |s.streams| && Misread(s.streams[k])
  }

  lemma SoundIsRead(s: State)
    requires Inv(s)
    ensures AllRight(s) <==> !AnyMisread(s)
  {
    forall k | 0 <= k < |s.streams| ensures Misread(s.streams[k]) <==> !Right(s.streams[k].writes) || s.streams[k].torn {
      ReadsRightExactly(s.streams[k].writes);
    }
  }

  /** In every run without such harm, every stream reads as the IDs that were meant. */
  lemma {:induction false} HarmlessRunsRead(states: seq<State>, steps: seq<Step>, n: nat)
    requires IsRun(states, steps) && n < |states|
    requires forall k :: 0 <= k < n ==> WellFormed(states[k]) && Enabled(states[k], steps[k]) && !Harms(states[k], steps[k])
    ensures Inv(states[n]) && Sound(states[n]) && !AnyMisread(states[n])
  {
    if n > 0 {
      HarmlessRunsRead(states, steps, n - 1);
      StaysSoundExactly(states[n - 1], steps[n - 1]);
    }
    SoundIsRead(states[n]);
  }

  lemma Extend(states: seq<State>, steps: seq<Step>, step: Step, s: State) returns (states': seq<State>, steps': seq<Step>)
    requires IsRun(states, steps) && WellFormed(states[|steps|]) && Enabled(states[|steps|], step) && Next(states[|steps|], step) == s
    ensures IsRun(states', steps') && steps' == steps + [step] && states'[|steps'|] == s
  {
    states', steps' := states + [s], steps + [step];
  }

  lemma {:induction false} RunKeepsInv(states: seq<State>, steps: seq<Step>, n: nat)
    requires IsRun(states, steps) && n < |states|
    ensures Inv(states[n])
  {
    if n > 0 {
      RunKeepsInv(states, steps, n - 1);
      StepKeepsInv(states[n - 1], steps[n - 1]);
    }
  }
}
