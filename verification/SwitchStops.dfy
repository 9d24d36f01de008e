/**
 That a switch stops the subscription it leaves: when a drain ends, and that nothing more
 is sent after a cut or a drain until something starts the subscription again.
 */
module SwitchStops {
  import opened Locations
  import opened SubscriptionStates
  import opened Switching

  /** The event stops the subscription. */
  predicate Stops(e: Event, r: RequestId) {
    (e.Cut? || e.CutShort? || e.Drained? || e.DrainedShort?) && e.sub == r
  }

  /** The step starts it again. */
  predicate Restarts(step: Step, r: RequestId) {
    step.r == r && (step.Subscribe? || step.Begin? || (step.Update? && step.newForward == Some(true)))
  }

  ghost predicate Silent(w: World, r: RequestId) {
    r in w.subs ==> !w.subs[r].state.forward
  }

  /** From `from` on the log shows nothing sent by the subscription. */
  ghost predicate NothingSent(log: seq<Event>, from: nat, r: RequestId) {
    forall i :: from <= i < |log| && log[i].Sent? ==> log[i].sub != r
  }

  /** The event at `i` has stopped the subscription, which is silent and has sent nothing since. */
  ghost predicate SilentSince(w: World, i: nat, r: RequestId) {
    i < |w.log| && Stops(w.log[i], r) && Silent(w, r) && NothingSent(w.log, i + 1, r)
  }

  /** What a delivery adds to the log, in order, and what it leaves of Forward States. */
  lemma DeliveryAdds(w: World, o: RequestId, l: Location, datagram: bool, w': World)
    requires o in w.subs && w' == Delivered(w, o, l, datagram)
    ensures |w.log| < |w'.log| && w'.log[..|w.log|] == w.log && w'.log[|w.log|] == Sent(o, l, datagram)
    ensures forall i :: |w.log| < i < |w'.log| ==> !w'.log[i].Sent? && !w'.log[i].Drained? && !w'.log[i].DrainedShort?
    ensures forall r, i :: |w.log| <= i < |w'.log| && Stops(w'.log[i], r) ==> Silent(w', r)
    ensures forall r :: Silent(w, r) ==> Silent(w', r)
  {
  }

  lemma ShortDeliveryAdds(w: World, o: RequestId, l: Location, datagram: bool, stage: Stage, w': World)
    requires o in w.subs && w' == DeliveredShort(w, o, l, datagram, stage)
    ensures |w.log| < |w'.log| && w'.log[..|w.log|] == w.log && w'.log[|w.log|] == Sent(o, l, datagram)
    ensures forall i :: |w.log| < i < |w'.log| ==> !w'.log[i].Sent? && !w'.log[i].Drained? && !w'.log[i].DrainedShort?
    ensures forall r, i :: |w.log| <= i < |w'.log| && Stops(w'.log[i], r) ==> Silent(w', r)
    ensures forall r :: Silent(w, r) ==> Silent(w', r)
  {
  }

  /** A step that stops a subscription leaves it silent, having sent nothing since. */
  lemma StopSilences(w: World, step: Step, w': World, i: nat, r: RequestId)
    requires Enabled(w, step) && w' == Next(w, step) && |w.log| <= i < |w'.log| && Stops(w'.log[i], r)
    ensures SilentSince(w', i, r)
  {
    match step
    case Object(o, l, passes, written) =>
      if w.subs[o].state.VerdictOn(l, passes) == Deliver {
        DeliveryAdds(w, o, l, false, w');
      }
    case Datagram(o, l, passes, written) => DeliveryAdds(w, o, l, true, w');
    case Dropped(o, l, passes, datagram, stage) => DroppedSilences(w, step, w', i, r);
    case _ =>
  }

  lemma DroppedSilences(w: World, step: Step, w': World, i: nat, r: RequestId)
    requires Enabled(w, step) && step.Dropped? && w' == OnDropped(w, step.r, step.l, step.passes, step.datagram, step.stage)
    requires |w.log| <= i < |w'.log| && Stops(w'.log[i], r)
    ensures SilentSince(w', i, r)
  {
    if w' == DeliveredShort(w, step.r, step.l, step.datagram, step.stage) {
      ShortDeliveryAdds(w, step.r, step.l, step.datagram, step.stage, w');
    }
  }

  lemma DropStaysSilent(w: World, step: Step, w': World, r: RequestId)
    requires Enabled(w, step) && step.Dropped? && w' == OnDropped(w, step.r, step.l, step.passes, step.datagram, step.stage)
    requires Silent(w, r)
    ensures Silent(w', r) && |w.log| <= |w'.log| && w'.log[..|w.log|] == w.log && NothingSent(w'.log, |w.log|, r)
  {
    if w' == DeliveredShort(w, step.r, step.l, step.datagram, step.stage) {
      ShortDeliveryAdds(w, step.r, step.l, step.datagram, step.stage, w');
    }
  }

  lemma ObjectStaysSilent(w: World, step: Step, w': World, r: RequestId)
    requires Enabled(w, step) && (step.Object? || step.Datagram?) && w' == Next(w, step) && Silent(w, r)
    ensures Silent(w', r) && |w.log| <= |w'.log| && w'.log[..|w.log|] == w.log && NothingSent(w'.log, |w.log|, r)
  {
    if w' == Delivered(w, step.r, step.l, step.Datagram?) {
      DeliveryAdds(w, step.r, step.l, step.Datagram?, w');
    }
  }

  lemma StepStaysSilent(w: World, step: Step, w': World, r: RequestId)
    requires Enabled(w, step) && !Restarts(step, r) && w' == Next(w, step) && Silent(w, r)
    ensures Silent(w', r) && |w.log| <= |w'.log| && w'.log[..|w.log|] == w.log && NothingSent(w'.log, |w.log|, r)
  {
    match step
    case Object(_, _, _, _) => ObjectStaysSilent(w, step, w', r);
    case Datagram(_, _, _, _) => ObjectStaysSilent(w, step, w', r);
    case Dropped(_, _, _, _, _) => DropStaysSilent(w, step, w', r);
    case _ =>
  }

  lemma StepKeepsSilence(worlds: seq<World>, steps: seq<Step>, k: nat, i: nat, r: RequestId)
    requires IsRun(worlds, steps) && k < |steps| && !Restarts(steps[k], r) && SilentSince(worlds[k], i, r)
    ensures SilentSince(worlds[k + 1], i, r)
  {
    var w, w' := worlds[k], worlds[k + 1];
    StepStaysSilent(w, steps[k], w', r);
    assert forall j :: 0 <= j < |w.log| ==> w'.log[j] == w'.log[..|w.log|][j] == w.log[j];
  }

  /**
   In every run, once a cut or the end of a drain is in the log, given up in its midst or not,
   the subscription it stops sends nothing, as a subgroup Object or a datagram, until it is
   asked to forward, switched to, or subscribed anew.
   */
  lemma SilentOnceStopped(worlds: seq<World>, steps: seq<Step>, m: nat, n: nat, i: nat, r: RequestId)
    requires IsRun(worlds, steps) && m < n < |worlds|
    requires |worlds[m].log| <= i < |worlds[m + 1].log| && Stops(worlds[m + 1].log[i], r)
    requires forall k :: m < k < n ==> !Restarts(steps[k], r)
    ensures SilentSince(worlds[n], i, r)
  {
    StopInRunSilences(worlds, steps, m, i, r);
    StaysSilent(worlds, steps, m + 1, n, i, r);
  }

  lemma {:induction false} StaysSilent(worlds: seq<World>, steps: seq<Step>, m: nat, n: nat, i: nat, r: RequestId)
    requires IsRun(worlds, steps) && m <= n < |worlds| && SilentSince(worlds[m], i, r)
    requires forall k :: m <= k < n ==> !Restarts(steps[k], r)
    ensures SilentSince(worlds[n], i, r)
    decreases n
  {
    if n > m {
      StaysSilent(worlds, steps, m, n - 1, i, r);
      StepKeepsSilence(worlds, steps, n - 1, i, r);
    }
  }

  lemma StopInRunSilences(worlds: seq<World>, steps: seq<Step>, m: nat, i: nat, r: RequestId)
    requires IsRun(worlds, steps) && m < |steps|
    requires |worlds[m].log| <= i < |worlds[m + 1].log| && Stops(worlds[m + 1].log[i], r)
    ensures SilentSince(worlds[m + 1], i, r)
  {
    StopSilences(worlds[m], steps[m], worlds[m + 1], i, r);
  }

  // ---- When a drain ends ----

  /** The step brings the subscription an Object of a subgroup, whatever becomes of it. */
  predicate BringsObject(step: Step, r: RequestId) {
    step.r == r && (step.Object? || (step.Dropped? && !step.datagram))
  }

  /** The Object is not before the subscription's start and lies past its end. */
  ghost predicate ArrivesPastEnd(state: SubscriptionState, l: Location) {
    (state.start.Some? ==> state.start.value.AtMost(l)) && !InWindow(state, l)
  }

  /**
   A drain ends exactly with a subgroup Object that reaches the subscription past its end,
   whether or not it forwards, the Range Filters pass the Object, or it could be written.
   */
  lemma DrainEndsExactly(w: World, step: Step, w': World, r: RequestId)
    requires Enabled(w, step) && w' == Next(w, step) && r in w.subs && w.subs[r].state.softSuspended
    ensures |w.log| <= |w'.log|
    ensures (exists i :: |w.log| <= i < |w'.log| && (w'.log[i].Drained? || w'.log[i].DrainedShort?) && w'.log[i].sub == r) <==>
      BringsObject(step, r) && ArrivesPastEnd(w.subs[r].state, step.l)
  {
    if BringsObject(step, r) && ArrivesPastEnd(w.subs[r].state, step.l) {
      DrainEnds(w, step, w', r);
      assert (w'.log[|w.log|].Drained? || w'.log[|w.log|].DrainedShort?) && w'.log[|w.log|].sub == r;
    } else {
      NoDrainEnds(w, step, w', r);
    }
  }

  /** It leaves Forward State 0, and PUBLISH_DONE goes out exactly if the switch asked for it and is not given up. */
  lemma DrainEnds(w: World, step: Step, w': World, r: RequestId)
    requires Enabled(w, step) && w' == Next(w, step) && r in w.subs && w.subs[r].state.softSuspended
    requires BringsObject(step, r) && ArrivesPastEnd(w.subs[r].state, step.l)
    ensures
      var sub, done := w.subs[r], step.Object? && w.subs[r].state.publishDoneAtEnd;
      && w'.log == w.log + [if step.Object? then Drained(sub.drain, r) else DrainedShort(sub.drain, r)]
                         + (if done then [SwitchedAway(sub.drain, r)] else [])
      && r in w'.subs && !w'.subs[r].state.forward && !w'.subs[r].state.softSuspended && !w'.subs[r].state.publishDoneAtEnd
      && (w'.subs[r].finished <==> sub.finished || done)
  {
    VerdictExactly(w.subs[r].state, step.l, step.passes);
  }

  lemma NoDrainEnds(w: World, step: Step, w': World, r: RequestId)
    requires Enabled(w, step) && w' == Next(w, step) && r in w.subs
    requires !(BringsObject(step, r) && ArrivesPastEnd(w.subs[r].state, step.l))
    ensures |w.log| <= |w'.log|
    ensures forall i :: |w.log| <= i < |w'.log| ==> !((w'.log[i].Drained? || w'.log[i].DrainedShort?) && w'.log[i].sub == r)
  {
    match step
    case Object(o, l, passes, written) =>
      VerdictExactly(w.subs[o].state, l, passes);
      if w' == Delivered(w, o, l, false) {
        DeliveryAdds(w, o, l, false, w');
      }
    case Datagram(o, l, passes, written) =>
      if w' == Delivered(w, o, l, true) {
        DeliveryAdds(w, o, l, true, w');
      }
    case Dropped(o, l, passes, datagram, stage) => NoDroppedDrainEnds(w, step, w', r);
    case _ =>
  }

  lemma NoDroppedDrainEnds(w: World, step: Step, w': World, r: RequestId)
    requires Enabled(w, step) && step.Dropped? && w' == OnDropped(w, step.r, step.l, step.passes, step.datagram, step.stage)
    requires r in w.subs && !(BringsObject(step, r) && ArrivesPastEnd(w.subs[r].state, step.l))
    ensures |w.log| <= |w'.log|
    ensures forall i :: |w.log| <= i < |w'.log| ==> !((w'.log[i].Drained? || w'.log[i].DrainedShort?) && w'.log[i].sub == r)
  {
    VerdictExactly(w.subs[step.r].state, step.l, step.passes);
    if w' == DeliveredShort(w, step.r, step.l, step.datagram, step.stage) {
      ShortDeliveryAdds(w, step.r, step.l, step.datagram, step.stage, w');
    }
  }
}
