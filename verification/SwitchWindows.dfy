/**
 What each step makes a subscription deliver: what it was asked for, what a switch starts
 and cuts, and what a boundary holds back of subgroup Objects and of datagrams.
 */
module SwitchWindows {
  import opened Locations
  import opened SubscriptionStates
  import opened Switching
  import opened SwitchSeam
  import SwitchStops

  /** The subscription would deliver the subgroup Object. */
  ghost predicate Delivers(w: World, r: RequestId, l: Location, passes: bool) {
    r in w.subs && w.subs[r].state.VerdictOn(l, passes) == Deliver
  }

  // ---- Requests ----

  /** A new subscription delivers what its filter passes, or everything until a live filter is measured. */
  lemma SubscribeDelivers(w: World, step: Step, l: Location, passes: bool)
    requires Enabled(w, step) && step.Subscribe?
    ensures Delivers(Next(w, step), step.r, l, passes) <==>
      step.forward && passes && (step.filter.IsLive() || PassedBy(step.filter, None, l))
  {
    var state := FRESH.WithInitialFilter(step.filter).(forward := step.forward);
    VerdictExactly(state, l, passes);
    FilterPasses(FRESH, step.filter, None, l);
    MeasuredLater(FRESH, step.filter, None, l);
  }

  /** An update changes the window only if it carries a filter, and Forward State only if it carries one. */
  lemma UpdateDelivers(w: World, step: Step, l: Location, passes: bool)
    requires Enabled(w, step) && step.Update?
    ensures
      var state := w.subs[step.r].state;
      Delivers(Next(w, step), step.r, l, passes) <==>
        && (if step.newForward.Some? then step.newForward.value else state.forward) && passes
        && (if step.newFilter.Some? then PassedBy(step.newFilter.value, None, l) else InWindow(state, l))
  {
    var state := w.subs[step.r].state;
    VerdictExactly(Next(w, step).subs[step.r].state, l, passes);
    if step.newFilter.Some? {
      FilterPasses(state, step.newFilter.value, None, l);
    }
  }

  /** A subscription that has just subscribed and is then measured delivers what its filter passes of the track. */
  lemma MeasuringDelivers(w: World, step: Step, largest: Option<Location>, l: Location, passes: bool)
    requires Enabled(w, step) && step.Subscribe?
    ensures
      var measured := Next(Next(w, step), ResolveLiveStart(step.r, largest));
      Delivers(measured, step.r, l, passes) <==> step.forward && passes && PassedBy(step.filter, largest, l)
  {
    var state := FRESH.WithLocationFilter(step.filter, largest).(forward := step.forward);
    MeasuredLater(FRESH, step.filter, largest, l);
    assert Next(Next(w, step), ResolveLiveStart(step.r, largest)).subs[step.r].state == state;
    VerdictExactly(state, l, passes);
    FilterPasses(FRESH, step.filter, largest, l);
  }

  /** A switch starts the subscription it names: it forwards whatever lies in its window, that of the switch's filter if there is one. */
  lemma BeginDelivers(w: World, step: Step, l: Location, passes: bool)
    requires Enabled(w, step) && step.Begin?
    ensures
      var state := w.subs[step.r].state;
      Delivers(Next(w, step), step.r, l, passes) <==>
        passes && (if step.switchFilter.Some? then PassedBy(step.switchFilter.value, step.largest, l) else InWindow(state, l))
  {
    var state := w.subs[step.r].state;
    var activated := ActivatedState(state, step.switchFilter, step.largest);
    assert Next(w, step).subs[step.r].state == activated;
    VerdictExactly(activated, l, passes);
    if step.switchFilter.Some? {
      FilterPasses(state, step.switchFilter.value, step.largest, l);
    }
  }

  /** No request touches a subscription other than its own, but for the one a switch suspends. */
  lemma OthersStay(w: World, step: Step, o: RequestId)
    requires Enabled(w, step) && o in w.subs && o != step.r && !(step.Begin? && o == step.suspending)
    requires !step.Object? && !step.Datagram? && !step.Dropped?
    ensures o in Next(w, step).subs && Next(w, step).subs[o] == w.subs[o]
  {
  }

  // ---- A hard switch ----

  /** The delivery that completes a hard switch cuts the subscription it leaves: it delivers nothing more, and stays as it is otherwise. */
  lemma HardSwitchCuts(w: World, step: Step)
    requires Enabled(w, step) && Completes(w, step)
    requires w.plans[step.r].mode == Hard && w.plans[step.r].suspending in w.subs && w.plans[step.r].suspending != step.r
    ensures
      var plan, w' := w.plans[step.r], Next(w, step);
      && Completed(plan.id) in w'.log[|w.log|..] && Cut(plan.id, plan.suspending) in w'.log[|w.log|..]
      && w'.subs[plan.suspending] == w.subs[plan.suspending].(state := w.subs[plan.suspending].state.(forward := false))
      && step.r !in w'.plans
  {
    var plan, w' := w.plans[step.r], Next(w, step);
    assert w'.log[|w.log| + 1] == Completed(plan.id) && w'.log[|w.log| + 2] == Cut(plan.id, plan.suspending);
  }

  lemma CompletionLeaves(w: World, r: RequestId, group: U64, w': World)
    requires r in w.plans && w' == CompleteSwitch(w, r, group)
    ensures w'.log == w.log + Happening(w, w.plans[r]) && w'.plans == w.plans - {r}
    ensures forall o :: o in w.subs ==> o in w'.subs && w'.subs[o].pendingSwitch == w.subs[o].pendingSwitch
  {
  }

  lemma DeliveredLeaves(w: World, r: RequestId, l: Location, datagram: bool, w': World)
    requires r in w.subs && w' == Delivered(w, r, l, datagram)
    ensures r in w'.subs && !w'.subs[r].pendingSwitch
    ensures
      var happens := w.subs[r].pendingSwitch && r in w.plans;
      && w'.plans == (if happens then w.plans - {r} else w.plans)
      && w'.log == w.log + [Sent(r, l, datagram)] + if happens then Happening(w, w.plans[r]) else []
  {
    var w1 := w.Log(Sent(r, l, datagram)).Put(r, w.subs[r].(pendingSwitch := false));
    if w.subs[r].pendingSwitch && r in w.plans {
      CompletionLeaves(w1, r, l.group, w');
      assert Happening(w1, w.plans[r]) == Happening(w, w.plans[r]);
    }
  }

  /** What a delivery does about switches: nothing without a flag and a plan, and otherwise it takes both and does what the plan says, once. */
  lemma DeliveryLeaves(w: World, step: Step, w': World)
    requires Enabled(w, step) && ((step.Object? && Sends(w, step)) || SendsDatagram(w, step)) && w' == Next(w, step)
    ensures
      var happens := w.subs[step.r].pendingSwitch && step.r in w.plans;
      && step.r in w'.subs && !w'.subs[step.r].pendingSwitch
      && w'.plans == (if happens then w.plans - {step.r} else w.plans)
      && w'.log == w.log + [Sent(step.r, step.l, step.Datagram?)] + if happens then Happening(w, w.plans[step.r]) else []
  {
    DeliveredLeaves(w, step.r, step.l, step.Datagram?, w');
  }

  /** What the log shows of a switch that happens. */
  function Happening(w: World, plan: Plan): seq<Event> {
    if plan.mode == Soft || plan.suspending !in w.subs then [Completed(plan.id)]
    else if plan.publishDone then [Completed(plan.id), Cut(plan.id, plan.suspending), SwitchedAway(plan.id, plan.suspending)]
    else [Completed(plan.id), Cut(plan.id, plan.suspending)]
  }

  /** What is left of a switch whose completing delivery is dropped: the flag before it is lowered, the plan before it is taken. */
  lemma DroppedLeaves(w: World, step: Step)
    requires Enabled(w, step) && step.Dropped? && w.subs[step.r].pendingSwitch && step.r in w.plans
    requires (if step.datagram then DatagramState(w, step.r) else w.subs[step.r].state).VerdictOn(step.l, step.passes) == Deliver
    ensures
      var plan, w' := w.plans[step.r], Next(w, step);
      && step.r in w'.subs && |w.log| <= |w'.log| && w'.log[..|w.log|] == w.log
      && (w'.subs[step.r].pendingSwitch <==> step.stage.BeforeSwap?)
      && (step.r in w'.plans <==> step.stage.BeforeSwap? || step.stage.BeforeTake?)
      && w'.log[|w.log|..] == [Sent(step.r, step.l, step.datagram)]
           + (if step.stage.AfterTake? || step.stage.AfterCut? then [Completed(plan.id)] else [])
           + (if step.stage.AfterCut? && plan.mode == Hard && plan.suspending in w.subs then [CutShort(plan.id, plan.suspending)] else [])
  {
  }

  // ---- Datagrams ----

  /**
   A subscription holds the activation of the plan that suspended it exactly while it
   drains, and PUBLISH_DONE is due only then; the log tells which plans are activated.
   */
  ghost predicate HoldsActivations(w: World) {
    && (forall p: PlanId :: p in w.activated <==> Completed(p) in w.log)
    && (forall r :: r in w.subs ==> HoldsOwn(w.subs[r]))
  }

  predicate HoldsOwn(sub: Sub) {
    && sub.awaiting == (if sub.state.softSuspended then Some(sub.drain) else None)
    && (sub.state.publishDoneAtEnd ==> sub.state.softSuspended)
  }

  lemma DeliveryHolds(w: World, o: RequestId, l: Location, datagram: bool, w': World)
    requires HoldsActivations(w) && o in w.subs && w' == Delivered(w, o, l, datagram)
    ensures HoldsActivations(w')
  {
    var sub := w.subs[o];
    var w1 := w.Log(Sent(o, l, datagram));
    assert HoldsActivations(w1);
    if sub.pendingSwitch {
      CompletionHolds(w1.Put(o, sub.(pendingSwitch := false)), o, l.group, w');
    }
  }

  lemma CompletionHolds(w: World, o: RequestId, group: U64, w': World)
    requires HoldsActivations(w) && w' == CompleteSwitch(w, o, group)
    ensures HoldsActivations(w')
  {
    if o in w.plans {
      var plan := w.plans[o];
      var taken := w.(plans := w.plans - {o}, activated := w.activated + {plan.id}).Log(Completed(plan.id));
      assert HoldsActivations(taken);
      match plan.mode
      case Soft => SuspensionHolds(taken, plan, group);
      case Hard =>
    }
  }

  lemma SuspensionHolds(w: World, plan: Plan, boundary: U64)
    requires HoldsActivations(w)
    ensures HoldsActivations(SuspendAt(w, plan, boundary))
  {
  }

  lemma ShortDeliveryHolds(w: World, o: RequestId, l: Location, datagram: bool, stage: Stage, w': World)
    requires HoldsActivations(w) && o in w.subs && w' == DeliveredShort(w, o, l, datagram, stage)
    ensures HoldsActivations(w')
  {
  }

  lemma BeginHolds(w: World, step: Step, w': World)
    requires HoldsActivations(w) && Enabled(w, step) && step.Begin? && w' == Next(w, step)
    ensures HoldsActivations(w')
  {
    var state := ActivatedState(w.subs[step.r].state, step.switchFilter, step.largest);
    var w1 := Activate(w, step.r, state, step.suspending, step.publishDone);
    assert HoldsActivations(w1);
    if state.start.Some? {
      var plan := Plan(w.nextPlan, step.suspending, step.mode, step.publishDone, Some(state.start.value.group));
      SuspensionHolds(w1, plan, state.start.value.group);
    }
  }

  lemma ObjectHolds(w: World, step: Step, w': World)
    requires HoldsActivations(w) && Enabled(w, step) && (step.Object? || step.Datagram?) && w' == Next(w, step)
    ensures HoldsActivations(w')
  {
    DeliveryHolds(w, step.r, step.l, step.Datagram?, Delivered(w, step.r, step.l, step.Datagram?));
  }

  lemma DroppedHolds(w: World, step: Step, w': World)
    requires HoldsActivations(w) && Enabled(w, step) && step.Dropped?
    requires w' == OnDropped(w, step.r, step.l, step.passes, step.datagram, step.stage)
    ensures HoldsActivations(w')
  {
    ShortDeliveryHolds(w, step.r, step.l, step.datagram, step.stage, DeliveredShort(w, step.r, step.l, step.datagram, step.stage));
  }

  lemma StepHolds(w: World, step: Step, w': World)
    requires HoldsActivations(w) && Enabled(w, step) && w' == Next(w, step)
    ensures HoldsActivations(w')
  {
    match step
    case Begin(_, _, _, _, _, _) => BeginHolds(w, step, w');
    case Object(_, _, _, _) => ObjectHolds(w, step, w');
    case Datagram(_, _, _, _) => ObjectHolds(w, step, w');
    case Dropped(_, _, _, _, _) => DroppedHolds(w, step, w');
    case _ =>
  }

  lemma {:induction false} RunHolds(worlds: seq<World>, steps: seq<Step>, n: nat)
    requires IsRun(worlds, steps) && n < |worlds|
    ensures HoldsActivations(worlds[n])
  {
    if n > 0 {
      RunHolds(worlds, steps, n - 1);
      StepHolds(worlds[n - 1], steps[n - 1], worlds[n]);
    }
  }

  /**
   A boundary holds back datagrams only once the switch that set it is known to be real: in
   every run a subscription delivers a datagram exactly if it forwards, the filters pass it,
   it is not before the start, and it is not past the end or the switch the subscription
   drains for has yet to complete.
   */
  lemma DatagramExactly(worlds: seq<World>, steps: seq<Step>, n: nat, r: RequestId, l: Location, passes: bool)
    requires IsRun(worlds, steps) && n < |worlds| && r in worlds[n].subs
    ensures
      var w, sub := worlds[n], worlds[n].subs[r];
      DatagramState(w, r).VerdictOn(l, passes) == Deliver <==>
        && sub.state.forward && passes && (sub.state.start.Some? ==> sub.state.start.value.AtMost(l))
        && (InWindow(sub.state, l) || (sub.state.softSuspended && Completed(sub.drain) !in w.log))
  {
    RunHolds(worlds, steps, n);
    VerdictExactly(DatagramState(worlds[n], r), l, passes);
  }

  // ---- Finished subscriptions ----

  /** The subscription is gone or handles no more events. */
  ghost predicate Over(w: World, r: RequestId) {
    r in w.subs ==> w.subs[r].finished
  }

  lemma StepStaysOver(w: World, step: Step, w': World, r: RequestId)
    requires Enabled(w, step) && w' == Next(w, step) && Over(w, r) && !(step.Subscribe? && step.r == r)
    ensures |w.log| <= |w'.log| && w'.log[..|w.log|] == w.log && Over(w', r)
    ensures forall i :: |w.log| <= i < |w'.log| && w'.log[i].Sent? ==> w'.log[i].sub != r
  {
    match step
    case Object(_, _, _, _) => ObjectStaysOver(w, step, w', r);
    case Datagram(_, _, _, _) => ObjectStaysOver(w, step, w', r);
    case Dropped(_, _, _, _, _) => DroppedStaysOver(w, step, w', r);
    case _ =>
  }

  lemma DeliveryStaysOver(w: World, o: RequestId, l: Location, datagram: bool, w': World, r: RequestId)
    requires o in w.subs && w' == Delivered(w, o, l, datagram) && Over(w, r)
    ensures Over(w', r)
  {
  }

  lemma ObjectStaysOver(w: World, step: Step, w': World, r: RequestId)
    requires Enabled(w, step) && (step.Object? || step.Datagram?) && w' == Next(w, step) && Over(w, r)
    ensures |w.log| <= |w'.log| && w'.log[..|w.log|] == w.log && Over(w', r)
    ensures forall i :: |w.log| <= i < |w'.log| && w'.log[i].Sent? ==> w'.log[i].sub != r
  {
    if w' == Delivered(w, step.r, step.l, step.Datagram?) {
      SwitchStops.DeliveryAdds(w, step.r, step.l, step.Datagram?, w');
      DeliveryStaysOver(w, step.r, step.l, step.Datagram?, w', r);
    }
  }

  lemma DroppedStaysOver(w: World, step: Step, w': World, r: RequestId)
    requires Enabled(w, step) && step.Dropped? && Over(w, r)
    requires w' == OnDropped(w, step.r, step.l, step.passes, step.datagram, step.stage)
    ensures |w.log| <= |w'.log| && w'.log[..|w.log|] == w.log && Over(w', r)
    ensures forall i :: |w.log| <= i < |w'.log| && w'.log[i].Sent? ==> w'.log[i].sub != r
  {
  }

  ghost predicate OverSince(w: World, from: nat, r: RequestId) {
    Over(w, r) && from <= |w.log| && forall i :: from <= i < |w.log| && w.log[i].Sent? ==> w.log[i].sub != r
  }

  lemma StepKeepsOver(worlds: seq<World>, steps: seq<Step>, k: nat, from: nat, r: RequestId)
    requires IsRun(worlds, steps) && k < |steps| && !(steps[k].Subscribe? && steps[k].r == r) && OverSince(worlds[k], from, r)
    ensures OverSince(worlds[k + 1], from, r)
  {
    var w, w' := worlds[k], worlds[k + 1];
    StepStaysOver(w, steps[k], w', r);
    assert forall i :: 0 <= i < |w.log| ==> w'.log[i] == w'.log[..|w.log|][i] == w.log[i];
  }

  /** In every run, from where a subscription is finished or unsubscribed it sends nothing, whatever else is done to it, until it is subscribed anew. */
  lemma {:induction false} NothingOnceOver(worlds: seq<World>, steps: seq<Step>, m: nat, n: nat, r: RequestId)
    requires IsRun(worlds, steps) && m <= n < |worlds| && Over(worlds[m], r)
    requires forall k :: m <= k < n ==> !(steps[k].Subscribe? && steps[k].r == r)
    ensures OverSince(worlds[n], |worlds[m].log|, r)
    decreases n
  {
    if n > m {
      NothingOnceOver(worlds, steps, m, n - 1, r);
      StepKeepsOver(worlds, steps, n - 1, |worlds[m].log|, r);
    }
  }

  /** Finishing and unsubscribing do so. */
  lemma OverExactly(w: World, step: Step)
    requires Enabled(w, step) && (step.Finish? || step.Unsubscribe?)
    ensures Over(Next(w, step), step.r) && (step.r in Next(w, step).subs <==> step.Finish?)
  {
  }
}
