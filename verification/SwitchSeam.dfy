/**
 Where the two subscriptions of a soft switch meet: what each of them sends on its side of
 the boundary, in every run, and what is left to neither.
 */
module SwitchSeam {
  import opened Locations
  import opened SubscriptionStates
  import opened Switching

  /** The step leaves the window of the subscription to the switch. */
  ghost predicate LeavesWindow(step: Step, r: RequestId) {
    match step
    case Update(o, filter, _) => o != r || filter.None?
    case ResolveLiveStart(o, _) => o != r
    case Begin(o, _, _, _, _, _) => o != r
    case Subscribe(o, _, _) => o != r
    case _ => true
  }

  ghost predicate StopsBefore(w: World, r: RequestId, boundary: U64) {
    r in w.subs ==> w.subs[r].state.endGroup.Some? && w.subs[r].state.endGroup.value < boundary
  }

  ghost predicate StartsAt(w: World, r: RequestId, start: Option<Location>) {
    r in w.subs ==> w.subs[r].state.start == start
  }

  /** The subgroup Objects the subscription sent from `from` on are of groups below the boundary. */
  ghost predicate SentBelow(log: seq<Event>, from: nat, r: RequestId, boundary: U64) {
    forall i :: from <= i < |log| && log[i].Sent? && !log[i].datagram && log[i].sub == r ==> log[i].location.group < boundary
  }

  ghost predicate SentFrom(log: seq<Event>, from: nat, r: RequestId, boundary: U64) {
    forall i :: from <= i < |log| && log[i].Sent? && !log[i].datagram && log[i].sub == r ==> log[i].location.group >= boundary
  }

  lemma SuspendKeepsWindows(w: World, plan: Plan, at: U64, r: RequestId, boundary: U64, start: Option<Location>)
    ensures StopsBefore(w, r, boundary) ==> StopsBefore(SuspendAt(w, plan, at), r, boundary)
    ensures StartsAt(w, r, start) ==> StartsAt(SuspendAt(w, plan, at), r, start)
  {
  }

  /** What a delivery leaves of the windows, and what it adds to the log. */
  lemma DeliveredKeepsWindows(
    w: World, o: RequestId, l: Location, datagram: bool, r: RequestId, boundary: U64, start: Option<Location>)
    requires o in w.subs
    ensures
      var w' := Delivered(w, o, l, datagram);
      && (StopsBefore(w, r, boundary) ==> StopsBefore(w', r, boundary))
      && (StartsAt(w, r, start) ==> StartsAt(w', r, start))
      && |w.log| < |w'.log| && w'.log[..|w.log|] == w.log && w'.log[|w.log|] == Sent(o, l, datagram)
      && forall i :: |w.log| < i < |w'.log| ==> !w'.log[i].Sent?
  {
    var sub := w.subs[o];
    var w1 := w.Log(Sent(o, l, datagram));
    if sub.pendingSwitch && o in w.plans {
      var plan := w.plans[o];
      var w2 := w1.Put(o, sub.(pendingSwitch := false));
      var w3 := w2.(plans := w2.plans - {o}, activated := w2.activated + {plan.id}).Log(Completed(plan.id));
      SuspendKeepsWindows(w3, plan, l.group, r, boundary, start);
    }
  }

  lemma DeliveredShortKeepsWindows(
    w: World, o: RequestId, l: Location, datagram: bool, stage: Stage, r: RequestId, boundary: U64, start: Option<Location>)
    requires o in w.subs
    ensures
      var w' := DeliveredShort(w, o, l, datagram, stage);
      && (StopsBefore(w, r, boundary) ==> StopsBefore(w', r, boundary))
      && (StartsAt(w, r, start) ==> StartsAt(w', r, start))
      && |w.log| < |w'.log| && w'.log[..|w.log|] == w.log && w'.log[|w.log|] == Sent(o, l, datagram)
      && forall i :: |w.log| < i < |w'.log| ==> !w'.log[i].Sent?
  {
  }

  /** Short of a new filter or switch of its own, a subscription's start stays and its end only comes forward. */
  lemma StepKeepsWindow(w: World, step: Step, w': World, r: RequestId, boundary: U64, start: Option<Location>)
    requires Enabled(w, step) && LeavesWindow(step, r) && w' == Next(w, step)
    ensures StopsBefore(w, r, boundary) ==> StopsBefore(w', r, boundary)
    ensures StartsAt(w, r, start) ==> StartsAt(w', r, start)
  {
    match step
    case Object(_, _, _, _) => ObjectKeepsWindow(w, step, w', r, boundary, start);
    case Datagram(o, l, _, _) => DeliveredKeepsWindows(w, o, l, true, r, boundary, start);
    case Dropped(_, _, _, _, _) => DroppedKeepsWindow(w, step, w', r, boundary, start);
    case Begin(_, _, _, _, _, _) => BeginKeepsWindow(w, step, r, boundary, start);
    case _ => OtherKeepsWindow(w, step, w', r, boundary, start);
  }

  lemma ObjectKeepsWindow(w: World, step: Step, w': World, r: RequestId, boundary: U64, start: Option<Location>)
    requires Enabled(w, step) && step.Object? && w' == OnObject(w, step.r, step.l, step.passes, step.written)
    ensures StopsBefore(w, r, boundary) ==> StopsBefore(w', r, boundary)
    ensures StartsAt(w, r, start) ==> StartsAt(w', r, start)
  {
    DeliveredKeepsWindows(w, step.r, step.l, false, r, boundary, start);
  }

  lemma DroppedKeepsWindow(w: World, step: Step, w': World, r: RequestId, boundary: U64, start: Option<Location>)
    requires Enabled(w, step) && step.Dropped? && w' == OnDropped(w, step.r, step.l, step.passes, step.datagram, step.stage)
    ensures StopsBefore(w, r, boundary) ==> StopsBefore(w', r, boundary)
    ensures StartsAt(w, r, start) ==> StartsAt(w', r, start)
  {
    DeliveredShortKeepsWindows(w, step.r, step.l, step.datagram, step.stage, r, boundary, start);
  }

  lemma OtherKeepsWindow(w: World, step: Step, w': World, r: RequestId, boundary: U64, start: Option<Location>)
    requires Enabled(w, step) && LeavesWindow(step, r) && w' == Next(w, step)
    requires step.Subscribe? || step.Unsubscribe? || step.Update? || step.ResolveLiveStart? || step.Finish?
    ensures StopsBefore(w, r, boundary) ==> StopsBefore(w', r, boundary)
    ensures StartsAt(w, r, start) ==> StartsAt(w', r, start)
  {
  }

  lemma BeginKeepsWindow(w: World, step: Step, r: RequestId, boundary: U64, start: Option<Location>)
    requires Enabled(w, step) && step.Begin? && step.r != r
    ensures StopsBefore(w, r, boundary) ==> StopsBefore(Next(w, step), r, boundary)
    ensures StartsAt(w, r, start) ==> StartsAt(Next(w, step), r, start)
  {
    var state := ActivatedState(w.subs[step.r].state, step.switchFilter, step.largest);
    var w1 := Activate(w, step.r, state, step.suspending, step.publishDone);
    if state.start.Some? {
      var plan := Plan(w.nextPlan, step.suspending, step.mode, step.publishDone, Some(state.start.value.group));
      SuspendKeepsWindows(w1, plan, state.start.value.group, r, boundary, start);
    }
  }

  /** The subgroup Object a step sends, if it sends one. */
  ghost predicate Sends(w: World, step: Step) {
    && ((step.Object? && step.written) || (step.Dropped? && !step.datagram))
    && step.r in w.subs && w.subs[step.r].state.VerdictOn(step.l, step.passes) == Deliver
  }

  lemma StepLogs(w: World, step: Step, w': World)
    requires Enabled(w, step) && w' == Next(w, step)
    ensures |w.log| <= |w'.log| && w'.log[..|w.log|] == w.log
    ensures forall i :: |w.log| <= i < |w'.log| && w'.log[i].Sent? && !w'.log[i].datagram ==>
      Sends(w, step) && w'.log[i] == Sent(step.r, step.l, false)
  {
    match step
    case Object(o, l, _, _) => ObjectLogs(w, step, w');
    case Datagram(o, l, _, _) => DeliveredKeepsWindows(w, o, l, true, o, 0, None);
    case Dropped(o, l, _, datagram, stage) => DroppedLogs(w, step, w');
    case _ =>
  }

  lemma ObjectLogs(w: World, step: Step, w': World)
    requires Enabled(w, step) && step.Object? && w' == OnObject(w, step.r, step.l, step.passes, step.written)
    ensures |w.log| <= |w'.log| && w'.log[..|w.log|] == w.log
    ensures forall i :: |w.log| <= i < |w'.log| && w'.log[i].Sent? ==> Sends(w, step) && w'.log[i] == Sent(step.r, step.l, false)
  {
    DeliveredKeepsWindows(w, step.r, step.l, false, step.r, 0, None);
  }

  lemma DroppedLogs(w: World, step: Step, w': World)
    requires Enabled(w, step) && step.Dropped? && w' == OnDropped(w, step.r, step.l, step.passes, step.datagram, step.stage)
    ensures |w.log| <= |w'.log| && w'.log[..|w.log|] == w.log
    ensures forall i :: |w.log| <= i < |w'.log| && w'.log[i].Sent? && !w'.log[i].datagram ==>
      Sends(w, step) && w'.log[i] == Sent(step.r, step.l, false)
  {
    DeliveredShortKeepsWindows(w, step.r, step.l, step.datagram, step.stage, step.r, 0, None);
  }

  /** One step on the old side of a boundary. */
  lemma StepKeepsBelow(worlds: seq<World>, steps: seq<Step>, k: nat, from: nat, r: RequestId, boundary: U64)
    requires IsRun(worlds, steps) && k < |steps| && LeavesWindow(steps[k], r)
    requires from <= |worlds[k].log| && StopsBefore(worlds[k], r, boundary) && SentBelow(worlds[k].log, from, r, boundary)
    ensures from <= |worlds[k + 1].log|
    ensures StopsBefore(worlds[k + 1], r, boundary) && SentBelow(worlds[k + 1].log, from, r, boundary)
  {
    var w, step, w' := worlds[k], steps[k], worlds[k + 1];
    StepKeepsWindow(w, step, w', r, boundary, None);
    StepLogs(w, step, w');
    forall i | from <= i < |w'.log| && w'.log[i].Sent? && !w'.log[i].datagram && w'.log[i].sub == r
      ensures w'.log[i].location.group < boundary
    {
      if i < |w.log| {
        assert w'.log[i] == w'.log[..|w.log|][i] == w.log[i];
      }
    }
  }

  /** One step on the new side. */
  lemma StepKeepsFrom(w: World, step: Step, w': World, from: nat, r: RequestId, start: Location)
    requires Enabled(w, step) && w' == Next(w, step)
    requires from <= |w.log| && StartsAt(w, r, Some(start)) && SentFrom(w.log, from, r, start.group)
    ensures SentFrom(w'.log, from, r, start.group)
  {
    StepLogs(w, step, w');
    forall i | from <= i < |w'.log| && w'.log[i].Sent? && !w'.log[i].datagram && w'.log[i].sub == r
      ensures w'.log[i].location.group >= start.group
    {
      if i < |w.log| {
        assert w'.log[i] == w'.log[..|w.log|][i] == w.log[i];
      }
    }
  }

  lemma StepKeepsStart(worlds: seq<World>, steps: seq<Step>, k: nat, from: nat, r: RequestId, start: Option<Location>)
    requires IsRun(worlds, steps) && k < |steps| && LeavesWindow(steps[k], r)
    requires from <= |worlds[k].log| && StartsAt(worlds[k], r, start)
    requires start.Some? ==> SentFrom(worlds[k].log, from, r, start.value.group)
    ensures from <= |worlds[k + 1].log| && StartsAt(worlds[k + 1], r, start)
    ensures start.Some? ==> SentFrom(worlds[k + 1].log, from, r, start.value.group)
  {
    var w, step, w' := worlds[k], steps[k], worlds[k + 1];
    StepKeepsWindow(w, step, w', r, 0, start);
    StepLogs(w, step, w');
    if start.Some? {
      StepKeepsFrom(w, step, w', from, r, start.value);
    }
  }

  /** A subscription that stops before a boundary goes on doing so. */
  lemma {:induction false} KeepsBelow(worlds: seq<World>, steps: seq<Step>, m: nat, n: nat, r: RequestId, boundary: U64)
    requires IsRun(worlds, steps) && m <= n < |worlds| && StopsBefore(worlds[m], r, boundary)
    requires forall k :: m <= k < n ==> LeavesWindow(steps[k], r)
    ensures |worlds[m].log| <= |worlds[n].log|
    ensures StopsBefore(worlds[n], r, boundary) && SentBelow(worlds[n].log, |worlds[m].log|, r, boundary)
    decreases n
  {
    if n > m {
      KeepsBelow(worlds, steps, m, n - 1, r, boundary);
      StepKeepsBelow(worlds, steps, n - 1, |worlds[m].log|, r, boundary);
    }
  }

  lemma {:induction false} KeepsStart(worlds: seq<World>, steps: seq<Step>, m: nat, n: nat, r: RequestId, start: Option<Location>)
    requires IsRun(worlds, steps) && m <= n < |worlds| && StartsAt(worlds[m], r, start)
    requires forall k :: m <= k < n ==> LeavesWindow(steps[k], r)
    ensures |worlds[m].log| <= |worlds[n].log| && StartsAt(worlds[n], r, start)
    ensures start.Some? ==> SentFrom(worlds[n].log, |worlds[m].log|, r, start.value.group)
    decreases n
  {
    if n > m {
      KeepsStart(worlds, steps, m, n - 1, r, start);
      StepKeepsStart(worlds, steps, n - 1, |worlds[m].log|, r, start);
    }
  }

  /** The start of the subscription a switch activates, as the switch leaves it. */
  ghost function StartOf(w: World, r: RequestId): Option<Location> {
    if r in w.subs then w.subs[r].state.start else None
  }

  /**
   After a soft switch whose boundary is the new subscription's Start Group, above 0, and
   whatever else happens short of a new filter or a new switch of either: every subgroup
   Object the old one sends is of a group below the boundary, and every one the new one
   sends is of a group from it on.
   */
  lemma SoftSwitchMeets(worlds: seq<World>, steps: seq<Step>, b: nat, n: nat)
    requires IsRun(worlds, steps) && b < n < |worlds|
    requires steps[b].Begin? && steps[b].mode == Soft
    requires StartOf(worlds[b + 1], steps[b].r).Some? && StartOf(worlds[b + 1], steps[b].r).value.group > 0
    requires forall k :: b < k < n ==> LeavesWindow(steps[k], steps[b].suspending) && LeavesWindow(steps[k], steps[b].r)
    ensures
      var boundary, from := StartOf(worlds[b + 1], steps[b].r).value.group, |worlds[b + 1].log|;
      && SentBelow(worlds[n].log, from, steps[b].suspending, boundary)
      && SentFrom(worlds[n].log, from, steps[b].r, boundary)
  {
    var start := StartOf(worlds[b + 1], steps[b].r);
    KeepsBelow(worlds, steps, b + 1, n, steps[b].suspending, start.value.group);
    KeepsStart(worlds, steps, b + 1, n, steps[b].r, start);
  }

  ghost predicate SendsDatagram(w: World, step: Step) {
    step.Datagram? && step.r in w.subs && DatagramState(w, step.r).VerdictOn(step.l, step.passes) == Deliver && step.written
  }

  /** The step is the delivery that completes the plan of its subscription. */
  ghost predicate Completes(w: World, step: Step) {
    && ((step.Object? && Sends(w, step)) || SendsDatagram(w, step))
    && w.subs[step.r].pendingSwitch && step.r in w.plans
  }

  /**
   After a soft switch without a Start Group, whose boundary is then the first group the
   new subscription delivers: from that delivery on, if its group is above 0, every
   subgroup Object the old one sends is of a group below it.
   */
  lemma DiscoveredBoundaryStops(worlds: seq<World>, steps: seq<Step>, c: nat, n: nat)
    requires IsRun(worlds, steps) && c < n < |worlds| && Completes(worlds[c], steps[c]) && steps[c].l.group > 0
    requires worlds[c].plans[steps[c].r].mode == Soft && worlds[c].plans[steps[c].r].boundary.None?
    requires forall k :: c < k < n ==> LeavesWindow(steps[k], worlds[c].plans[steps[c].r].suspending)
    ensures SentBelow(worlds[n].log, |worlds[c + 1].log|, worlds[c].plans[steps[c].r].suspending, steps[c].l.group)
  {
    var former := worlds[c].plans[steps[c].r].suspending;
    assert StopsBefore(worlds[c + 1], former, steps[c].l.group);
    KeepsBelow(worlds, steps, c + 1, n, former, steps[c].l.group);
  }

  ghost predicate PlanIs(plan: Plan, step: Step, start: Option<Location>)
    requires step.Begin?
  {
    && plan.mode == step.mode && plan.suspending == step.suspending
    && plan.boundary == if start.Some? then Some(start.value.group) else None
  }

  lemma BeginMakesPlan(w: World, step: Step, w': World)
    requires Enabled(w, step) && step.Begin? && w' == Next(w, step)
    ensures step.r in w'.plans && PlanIs(w'.plans[step.r], step, StartOf(w', step.r))
  {
  }

  /** The plan of a switch stays as it was made until it completes. */
  lemma {:induction false} PlanStays(worlds: seq<World>, steps: seq<Step>, m: nat, n: nat, r: RequestId, made: Plan)
    requires IsRun(worlds, steps) && m <= n < |worlds| && (r in worlds[m].plans ==> worlds[m].plans[r] == made)
    requires forall k :: m <= k < n ==> LeavesWindow(steps[k], r)
    ensures r in worlds[n].plans ==> worlds[n].plans[r] == made
    decreases n
  {
    if n > m {
      PlanStays(worlds, steps, m, n - 1, r, made);
      StepKeepsPlan(worlds[n - 1], steps[n - 1], worlds[n], r);
    }
  }

  lemma StepKeepsPlan(w: World, step: Step, w': World, r: RequestId)
    requires Enabled(w, step) && LeavesWindow(step, r) && w' == Next(w, step)
    ensures r in w'.plans ==> r in w.plans && w'.plans[r] == w.plans[r]
  {
  }

  /** From the delivery on that completes a soft switch, what of the groups below the boundary the new subscription would send. */
  ghost predicate KeepsToItsSide(state: SubscriptionState, boundary: U64) {
    forall l: Location :: l.group < boundary ==> state.VerdictOn(l, true) != Deliver
  }

  /**
   The new subscription keeps to its side of the boundary exactly if the boundary is its
   own Start Group, or there is no group below it: a boundary discovered by the first
   delivery holds the old one only.
   */
  lemma NewSideExactly(worlds: seq<World>, steps: seq<Step>, b: nat, c: nat)
    requires IsRun(worlds, steps) && b < c < |steps| && steps[b].Begin? && steps[b].mode == Soft
    requires forall k :: b < k < c ==> LeavesWindow(steps[k], steps[b].r)
    requires Completes(worlds[c], steps[c]) && steps[c].r == steps[b].r
    ensures steps[b].r in worlds[c + 1].subs
    ensures
      var plan := worlds[c].plans[steps[b].r];
      var boundary := if plan.boundary.Some? then plan.boundary.value else steps[c].l.group;
      KeepsToItsSide(worlds[c + 1].subs[steps[b].r].state, boundary) <==> plan.boundary.Some? || boundary == 0
  {
    var r, l := steps[b].r, steps[c].l;
    var start := StartOf(worlds[b + 1], r);
    BeginMakesPlan(worlds[b], steps[b], worlds[b + 1]);
    PlanStays(worlds, steps, b + 1, c, r, worlds[b + 1].plans[r]);
    KeepsStart(worlds, steps, b + 1, c, r, start);
    CompletionKeepsNewState(worlds[c], steps[c]);
    var state := worlds[c + 1].subs[r].state;
    if start.None? && l.group > 0 {
      assert state.VerdictOn(Location(0, 0), true) == Deliver;
    }
  }

  lemma CompletionKeepsNewState(w: World, step: Step)
    requires Enabled(w, step) && Completes(w, step) && w.plans[step.r].suspending != step.r
    ensures step.r in Next(w, step).subs && Next(w, step).subs[step.r].state == w.subs[step.r].state
  {
  }

  /**
   The boundary of a soft switch is in force at once, not when the new subscription first
   delivers: the old one still delivers exactly what it did of the groups below it. Every
   other kind of switch leaves the old one as it was until the new one delivers.
   */
  lemma WhatBeginLeavesTheOldOne(w: World, step: Step, l: Location, passes: bool)
    requires Enabled(w, step) && step.Begin? && step.suspending in w.subs
    ensures
      var former, latter := w.subs[step.suspending].state, Next(w, step).subs[step.suspending].state;
      var start := Next(w, step).subs[step.r].state.start;
      latter.VerdictOn(l, passes) == Deliver <==>
        && former.VerdictOn(l, passes) == Deliver
        && (step.mode == Hard || start.None? || start.value.group == 0 || l.group < start.value.group)
  {
  }

  /** The delivery that completes a soft switch suspends the old one exactly when no Start Group did and it is not group 0. */
  lemma WhatCompletionLeavesTheOldOne(w: World, r: RequestId, delivered: U64)
    requires r in w.plans && w.plans[r].mode == Soft && w.plans[r].suspending in w.subs
    ensures
      var plan := w.plans[r];
      var former, latter := w.subs[plan.suspending], CompleteSwitch(w, r, delivered).subs[plan.suspending];
      if plan.boundary.None? && delivered > 0
      then latter.state == former.state.SuspendedAt(delivered, plan.publishDone)
      else latter == former
  {
  }

  const FROM_ZERO := AbsoluteStart(Location(0, 0))

  lemma BeginFromZero() returns (worlds: seq<World>, steps: seq<Step>)
    ensures IsRun(worlds, steps) && Begin(4, 2, Soft, false, Some(FROM_ZERO), None) in steps
    ensures
      var w := worlds[|steps|];
      && w.log == [Began(0, 4, 2, false)] && w.plans == map[4 := Plan(0, 2, Soft, false, Some(0))]
      && 2 in w.subs && w.subs[2] == Sub(FRESH, 0, None, false, false)
      && 4 in w.subs && w.subs[4] == Sub(FRESH.(filter := FROM_ZERO, start := Some(Location(0, 0))), 0, None, true, false)
  {
    var former := Sub(FRESH, 0, None, false, false);
    var latter := Sub(FRESH.(forward := false), 0, None, false, false);
    var w0 := World(map[], map[], {}, 0, []);
    var w1 := w0.Put(2, former);
    var w2 := w1.Put(4, latter);
    worlds, steps := Extend([w0], [], Subscribe(2, NoFilter, true), w1);
    worlds, steps := Extend(worlds, steps, Subscribe(4, NoFilter, false), w2);
    worlds, steps := Extend(worlds, steps, Begin(4, 2, Soft, false, Some(FROM_ZERO), None),
                            BeginSwitch(w2, 4, 2, Soft, false, Some(FROM_ZERO), None));
  }

  /** A soft switch to a subscription that starts at group 0 never stops the old one: both go on delivering. */
  lemma BoundaryZeroSuspendsNobody() returns (worlds: seq<World>, steps: seq<Step>)
    ensures IsRun(worlds, steps) && Begin(4, 2, Soft, false, Some(FROM_ZERO), None) in steps
    ensures worlds[|steps|].log ==
      [Began(0, 4, 2, false), Sent(4, Location(7, 0), false), Completed(0), Sent(2, Location(9, 0), false)]
  {
    worlds, steps := BeginFromZero();
    var w := worlds[|steps|];
    var w1 := Delivered(w, 4, Location(7, 0), false);
    worlds, steps := Extend(worlds, steps, Object(4, Location(7, 0), true, true), w1);
    worlds, steps := Extend(worlds, steps, Object(2, Location(9, 0), true, true), w1.Log(Sent(2, Location(9, 0), false)));
  }

  // ---- Boundaries found by the first delivery ----

  /** A soft switch to a subscription without a Start Group: both have sent nothing yet. */
  lemma BeginWithoutStart() returns (worlds: seq<World>, steps: seq<Step>)
    ensures IsRun(worlds, steps) && Begin(4, 2, Soft, false, Some(NoFilter), None) in steps
    ensures
      var w := worlds[|steps|];
      && w.log == [Began(0, 4, 2, false)] && w.plans == map[4 := Plan(0, 2, Soft, false, None)]
      && 2 in w.subs && w.subs[2] == Sub(FRESH, 0, None, false, false)
      && 4 in w.subs && w.subs[4] == Sub(FRESH, 0, None, true, false)
  {
    var w0 := World(map[], map[], {}, 0, []);
    var w1 := w0.Put(2, Sub(FRESH, 0, None, false, false));
    var w2 := w1.Put(4, Sub(FRESH.(forward := false), 0, None, false, false));
    worlds, steps := Extend([w0], [], Subscribe(2, NoFilter, true), w1);
    worlds, steps := Extend(worlds, steps, Subscribe(4, NoFilter, false), w2);
    worlds, steps := Extend(worlds, steps, Begin(4, 2, Soft, false, Some(NoFilter), None),
                            BeginSwitch(w2, 4, 2, Soft, false, Some(NoFilter), None));
  }

  /** The first delivery is of group 7, so the old one is to stop before it. */
  lemma FindBoundarySeven() returns (worlds: seq<World>, steps: seq<Step>)
    ensures IsRun(worlds, steps) && Begin(4, 2, Soft, false, Some(NoFilter), None) in steps
    ensures
      var w := worlds[|steps|];
      && w.log == [Began(0, 4, 2, false), Sent(4, Location(7, 0), false), Completed(0)] && w.plans == map[]
      && 2 in w.subs && w.subs[2] == Sub(FRESH.SuspendedAt(7, false), 0, Some(0), false, false)
      && 4 in w.subs && w.subs[4] == Sub(FRESH, 0, None, false, false)
  {
    worlds, steps := BeginWithoutStart();
    var w := worlds[|steps|];
    worlds, steps := Extend(worlds, steps, Object(4, Location(7, 0), true, true), Delivered(w, 4, Location(7, 0), false));
  }

  /** The first delivery is of group 7, so the old one stops there; then the new one sends group 5, and so does the old one. */
  lemma DiscoveredBoundaryOverlaps() returns (worlds: seq<World>, steps: seq<Step>)
    ensures IsRun(worlds, steps) && Begin(4, 2, Soft, false, Some(NoFilter), None) in steps
    ensures worlds[|steps|].log ==
      [Began(0, 4, 2, false), Sent(4, Location(7, 0), false), Completed(0),
       Sent(4, Location(5, 0), false), Sent(2, Location(5, 0), false)]
    ensures 2 in worlds[|steps|].subs && worlds[|steps|].subs[2].state.endGroup == Some(6)
  {
    worlds, steps := FindBoundarySeven();
    var w2 := worlds[|steps|].Log(Sent(4, Location(5, 0), false));
    worlds, steps := Extend(worlds, steps, Object(4, Location(5, 0), true, true), w2);
    worlds, steps := Extend(worlds, steps, Object(2, Location(5, 0), true, true), w2.Log(Sent(2, Location(5, 0), false)));
  }

  // ---- Holes ----

  ghost predicate WouldSend(w: World, r: RequestId, l: Location) {
    r in w.subs && w.subs[r].state.VerdictOn(l, true) == Deliver
  }

  /**
   What a soft switch leaves to neither subscription of what the old one would have sent:
   the Locations of the boundary group before the new one's start, and what lies from
   the boundary on past the new one's end.
   */
  lemma HoleExactly(w: World, step: Step, l: Location)
    requires Enabled(w, step) && step.Begin? && step.mode == Soft && WouldSend(w, step.suspending, l)
    requires StartOf(Next(w, step), step.r).Some? && StartOf(Next(w, step), step.r).value.group > 0
    ensures
      var w' := Next(w, step);
      var start := StartOf(w', step.r).value;
      !WouldSend(w', step.suspending, l) && !WouldSend(w', step.r, l) <==>
        || (l.group == start.group && l.id < start.id)
        || (l.group >= start.group && w'.subs[step.r].state.IsPastEnd(l))
  {
    assert step.r in Next(w, step).subs;
    WhatBeginLeavesTheOldOne(w, step, l, true);
  }

  /** So, to a subscription without an end, the two meet without a hole exactly if the new one starts with its group's first Object. */
  lemma MeetsWithoutHoleExactly(w: World, step: Step)
    requires Enabled(w, step) && step.Begin? && step.mode == Soft
    requires StartOf(Next(w, step), step.r).Some? && StartOf(Next(w, step), step.r).value.group > 0
    requires Next(w, step).subs[step.r].state.endGroup.None?
    requires WouldSend(w, step.suspending, Location(StartOf(Next(w, step), step.r).value.group, 0))
    ensures
      (forall l :: WouldSend(w, step.suspending, l) ==>
         WouldSend(Next(w, step), step.suspending, l) || WouldSend(Next(w, step), step.r, l))
      <==> StartOf(Next(w, step), step.r).value.id == 0
  {
    var start := StartOf(Next(w, step), step.r).value;
    HoleExactly(w, step, Location(start.group, 0));
    forall l | WouldSend(w, step.suspending, l) && start.id == 0
      ensures WouldSend(Next(w, step), step.suspending, l) || WouldSend(Next(w, step), step.r, l)
    {
      HoleExactly(w, step, l);
    }
  }

  /** A soft switch to a subscription that starts at the next Object of the track's group 7. */
  lemma BeginAtNextObject() returns (worlds: seq<World>, steps: seq<Step>)
    ensures IsRun(worlds, steps) && |steps| == 3 && worlds[2].log == [] && worlds[2].nextPlan == 0
    ensures worlds[2].subs == map[2 := Sub(FRESH, 0, None, false, false), 4 := Sub(FRESH.(forward := false), 0, None, false, false)]
    ensures steps[2] == Begin(4, 2, Soft, false, Some(NextObject), Some(Location(7, 2)))
  {
    var w0 := World(map[], map[], {}, 0, []);
    var w1 := w0.Put(2, Sub(FRESH, 0, None, false, false));
    var w2 := w1.Put(4, Sub(FRESH.(forward := false), 0, None, false, false));
    worlds, steps := Extend([w0], [], Subscribe(2, NoFilter, true), w1);
    worlds, steps := Extend(worlds, steps, Subscribe(4, NoFilter, false), w2);
    assert w2.subs == map[2 := Sub(FRESH, 0, None, false, false), 4 := Sub(FRESH.(forward := false), 0, None, false, false)];
    var begin := Begin(4, 2, Soft, false, Some(NextObject), Some(Location(7, 2)));
    var before := worlds;
    worlds, steps := Extend(worlds, steps, begin, Next(w2, begin));
    assert worlds == before + [Next(w2, begin)];
  }

  /** Nothing has been sent yet, and the first Object of group 7, which the old one would have sent, is already left to neither. */
  lemma NextObjectLeavesAHole() returns (worlds: seq<World>, steps: seq<Step>)
    ensures IsRun(worlds, steps) && |steps| == 3 && worlds[3].log == [Began(0, 4, 2, false)]
    ensures WouldSend(worlds[2], 2, Location(7, 0))
    ensures !WouldSend(worlds[3], 2, Location(7, 0)) && !WouldSend(worlds[3], 4, Location(7, 0))
  {
    worlds, steps := BeginAtNextObject();
    assert StartOf(worlds[3], 4) == Some(Location(7, 3));
    HoleExactly(worlds[2], steps[2], Location(7, 0));
  }
}
