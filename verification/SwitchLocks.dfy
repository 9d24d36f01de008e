/**
 The switches to one subscription, lock by lock: what beginning a switch and completing one
 do in separate sections, on two tasks, and what becomes of a switch in between.
 */
module SwitchLocks {
  import opened Locations

  type PlanId = nat

  datatype Event = Began(plan: PlanId) | Sent | Completed(plan: PlanId) | Suspended(plan: PlanId)

  /** How far a switch being begun has come: it has yet to set its plan, or yet to raise the flag. */
  datatype Beginning = Activated | Planned

  /**
   Where the event task stands with an Object: written, with the flag found raised, or with
   a plan in hand. `before` is the first plan that had not begun when the Object was written.
   */
  datatype Place = Idle | Wrote(before: PlanId) | Asked(before: PlanId) | Took(plan: PlanId)

  /** `slot` is the plan set for the subscription and `pending` its flag. */
  datatype World = World(
    begins: map<PlanId, Beginning>, slot: Option<PlanId>, pending: bool, at: Place, nextPlan: PlanId, log: seq<Event>)
  {
    function Log(event: Event): World {
      this.(log := log + [event])
    }
  }

  datatype Step =
    // Beginning a switch
    | Activate
    | SetPlan(p: PlanId)
    | Flag(p: PlanId)
    // The event task
    | Send
    | Swap
    | Take
    /** Cuts the subscription switched away from, or tells it where to stop. */
    | Suspend
    /** The event loop drops the Object in hand. */
    | GiveUp

  predicate Enabled(w: World, step: Step) {
    match step
    case Activate => true
    case SetPlan(p) => p in w.begins && w.begins[p].Activated?
    case Flag(p) => p in w.begins && w.begins[p].Planned?
    case Send => w.at.Idle?
    case Swap => w.at.Wrote?
    case Take => w.at.Asked?
    case Suspend => w.at.Took?
    case GiveUp => !w.at.Idle?
  }

  function Next(w: World, step: Step): World
    requires Enabled(w, step)
  {
    match step
    case Activate => w.(begins := w.begins[w.nextPlan := Activated], nextPlan := w.nextPlan + 1).Log(Began(w.nextPlan))
    case SetPlan(p) => w.(begins := w.begins[p := Planned], slot := Some(p))
    case Flag(p) => w.(begins := w.begins - {p}, pending := true)
    case Send => w.(at := Wrote(w.nextPlan)).Log(Sent)
    case Swap => if w.pending then w.(pending := false, at := Asked(w.at.before)) else w.(at := Idle)
    case Take => if w.slot.None? then w.(at := Idle) else w.(slot := None, at := Took(w.slot.value)).Log(Completed(w.slot.value))
    case Suspend => w.(at := Idle).Log(Suspended(w.at.plan))
    case GiveUp => w.(at := Idle)
  }

  const START := World(map[], None, false, Idle, 0, [])

  ghost predicate Leads(w: World, worlds: seq<World>, steps: seq<Step>) {
    && |worlds| == |steps| + 1 && worlds[0] == w
    && forall k :: 0 <= k < |steps| ==> Enabled(worlds[k], steps[k]) && worlds[k + 1] == Next(worlds[k], steps[k])
  }

  // ---- What holds in every run ----

  ghost predicate DeliveredSince(log: seq<Event>, plan: PlanId) {
    exists k, j :: 0 <= k < j < |log| && log[k] == Began(plan) && log[j] == Sent
  }

  /** The plan has begun and not been taken. */
  ghost predicate Untaken(w: World, plan: PlanId) {
    plan < w.nextPlan && Completed(plan) !in w.log
  }

  /** What the log says of a plan, and a later event for each. */
  ghost predicate LogHolds(log: seq<Event>, nextPlan: PlanId) {
    && (forall p: PlanId :: Began(p) in log <==> p < nextPlan)
    && (forall p: PlanId :: Completed(p) in log ==> p < nextPlan)
    && (forall i :: 0 <= i < |log| && log[i].Suspended? ==> Completed(log[i].plan) in log[..i])
    && forall i, j :: 0 <= i < j < |log| && !log[i].Sent? ==> log[i] != log[j]
  }

  ghost predicate PlacesHold(w: World) {
    && (forall p :: p in w.begins ==> p < w.nextPlan)
    && (forall p :: p in w.begins && w.begins[p].Activated? ==> Untaken(w, p) && w.slot != Some(p))
    && (w.slot.Some? ==> Untaken(w, w.slot.value))
    && (w.at.Took? ==> Completed(w.at.plan) in w.log && Suspended(w.at.plan) !in w.log)
  }

  /** The plans that began before the Object in hand are those with a delivery since. */
  ghost predicate HandHolds(w: World) {
    w.at.Wrote? || w.at.Asked? ==>
      w.at.before <= w.nextPlan && forall p: PlanId :: p < w.nextPlan ==> (DeliveredSince(w.log, p) <==> p < w.at.before)
  }

  ghost predicate Inv(w: World) {
    LogHolds(w.log, w.nextPlan) && PlacesHold(w) && HandHolds(w)
  }

  lemma DeliveredAfter(log: seq<Event>, e: Event, plan: PlanId)
    ensures DeliveredSince(log + [e], plan) <==> DeliveredSince(log, plan) || (e == Sent && Began(plan) in log)
  {
    var after := log + [e];
    assert after[|log|] == e && forall k :: 0 <= k < |log| ==> after[k] == log[k];
    if e == Sent && Began(plan) in log {
      var k :| 0 <= k < |log| && log[k] == Began(plan);
      assert after[k] == Began(plan) && after[|log|] == Sent;
    }
  }

  lemma LogGrows(log: seq<Event>, e: Event, nextPlan: PlanId)
    requires LogHolds(log, nextPlan) && (e == Sent || e !in log)
    requires e.Began? ==> e.plan == nextPlan
    requires e.Completed? ==> e.plan < nextPlan
    requires e.Suspended? ==> Completed(e.plan) in log
    ensures LogHolds(log + [e], if e.Began? then nextPlan + 1 else nextPlan)
  {
    var after := log + [e];
    assert after[..|log|] == log;
    forall i | 0 <= i < |log| && after[i].Suspended? ensures Completed(after[i].plan) in after[..i] {
      assert after[i] == log[i] && after[..i] == log[..i];
    }
  }

  lemma SuspendedCompleted(log: seq<Event>, nextPlan: PlanId, plan: PlanId)
    requires LogHolds(log, nextPlan) && Suspended(plan) in log
    ensures Completed(plan) in log
  {
    var i :| 0 <= i < |log| && log[i] == Suspended(plan);
    assert Completed(plan) in log[..i];
  }

  lemma StepKeepsLog(w: World, step: Step, w': World)
    requires Inv(w) && Enabled(w, step) && w' == Next(w, step)
    ensures LogHolds(w'.log, w'.nextPlan)
  {
    match step
    case Activate => LogGrows(w.log, Began(w.nextPlan), w.nextPlan);
    case Send => LogGrows(w.log, Sent, w.nextPlan);
    case Take =>
      if w.slot.Some? {
        LogGrows(w.log, Completed(w.slot.value), w.nextPlan);
      }
    case Suspend => LogGrows(w.log, Suspended(w.at.plan), w.nextPlan);
    case _ =>
  }

  lemma StepKeepsPlaces(w: World, step: Step, w': World)
    requires Inv(w) && Enabled(w, step) && w' == Next(w, step)
    ensures PlacesHold(w')
  {
    if step.Take? && w.slot.Some? && Suspended(w.slot.value) in w.log {
      SuspendedCompleted(w.log, w.nextPlan, w.slot.value);
    }
  }

  lemma StepKeepsHand(w: World, step: Step, w': World)
    requires Inv(w) && Enabled(w, step) && w' == Next(w, step)
    ensures HandHolds(w')
  {
    forall p: PlanId | p < w'.nextPlan && (w'.at.Wrote? || w'.at.Asked?)
      ensures DeliveredSince(w'.log, p) <==> p < w'.at.before
    {
      if step.Activate? {
        DeliveredAfter(w.log, Began(w.nextPlan), p);
        assert p == w.nextPlan ==> Began(p) !in w.log;
      } else if step.Send? {
        DeliveredAfter(w.log, Sent, p);
      }
    }
  }

  lemma {:induction false} RunKeepsInv(w: World, worlds: seq<World>, steps: seq<Step>, n: nat)
    requires Inv(w) && Leads(w, worlds, steps) && n < |worlds|
    ensures Inv(worlds[n])
  {
    if n > 0 {
      RunKeepsInv(w, worlds, steps, n - 1);
      StepKeepsLog(worlds[n - 1], steps[n - 1], worlds[n]);
      StepKeepsPlaces(worlds[n - 1], steps[n - 1], worlds[n]);
      StepKeepsHand(worlds[n - 1], steps[n - 1], worlds[n]);
    }
  }

  /** How far the event task is from being done with the Object in hand. */
  function StepsLeft(at: Place): nat {
    match at case Idle => 0 case Took(_) => 1 case Asked(_) => 2 case Wrote(_) => 3
  }

  /** Every step of the event task, other than sending the next Object, brings it nearer to being done. */
  lemma TaskMovesOn(w: World, step: Step)
    requires Enabled(w, step)
    ensures step.Swap? || step.Take? || step.Suspend? || step.GiveUp? ==> StepsLeft(Next(w, step).at) < StepsLeft(w.at)
    ensures step.Activate? || step.SetPlan? || step.Flag? ==> Next(w, step).at == w.at
    ensures w.at.Idle? <==> Enabled(w, Send)
  {
  }

  // ---- No switch happens before it has delivered ----

  /** Every switch that happened had something delivered since it began. */
  ghost predicate Orderly(log: seq<Event>) {
    forall i :: 0 <= i < |log| && log[i].Completed? ==> DeliveredSince(log[..i], log[i].plan)
  }

  /** The event task takes a plan that began after it wrote the Object in hand. */
  predicate TakesEarly(w: World, step: Step) {
    step.Take? && w.at.Asked? && w.slot.Some? && w.slot.value >= w.at.before
  }

  lemma OrderlyAfter(log: seq<Event>, e: Event)
    ensures Orderly(log + [e]) <==> Orderly(log) && (e.Completed? ==> DeliveredSince(log, e.plan))
  {
    var after := log + [e];
    assert after[|log|] == e && after[..|log|] == log;
    assert forall i :: 0 <= i < |log| ==> after[i] == log[i] && after[..i] == log[..i];
  }

  lemma StepIsOrderlyExactly(w: World, step: Step, w': World)
    requires Inv(w) && Enabled(w, step) && w' == Next(w, step)
    ensures Orderly(w'.log) <==> Orderly(w.log) && !TakesEarly(w, step)
  {
    if w'.log != w.log {
      OrderlyAfter(w.log, w'.log[|w.log|]);
    }
  }

  lemma StepInRunIsOrderlyExactly(worlds: seq<World>, steps: seq<Step>, k: nat)
    requires Leads(START, worlds, steps) && k < |steps|
    ensures Orderly(worlds[k + 1].log) <==> Orderly(worlds[k].log) && !TakesEarly(worlds[k], steps[k])
  {
    RunKeepsInv(START, worlds, steps, k);
    StepIsOrderlyExactly(worlds[k], steps[k], worlds[k + 1]);
  }

  /** In a run every switch that happened had delivered since it began, exactly if no plan was taken for an older Object. */
  lemma {:induction false} OrderlyExactly(worlds: seq<World>, steps: seq<Step>, n: nat)
    requires Leads(START, worlds, steps) && n < |worlds|
    ensures Orderly(worlds[n].log) <==> forall k :: 0 <= k < n ==> !TakesEarly(worlds[k], steps[k])
  {
    if n > 0 {
      OrderlyExactly(worlds, steps, n - 1);
      StepInRunIsOrderlyExactly(worlds, steps, n - 1);
    }
  }

  /** And each switch happens at most once, and suspends at most once, after it happened. */
  lemma EachAtMostOnce(worlds: seq<World>, steps: seq<Step>, n: nat)
    requires Leads(START, worlds, steps) && n < |worlds|
    ensures
      var log := worlds[n].log;
      && (forall i, j :: 0 <= i < j < |log| && !log[i].Sent? ==> log[i] != log[j])
      && (forall i :: 0 <= i < |log| && log[i].Suspended? ==> Completed(log[i].plan) in log[..i])
  {
    RunKeepsInv(START, worlds, steps, n);
  }

  // ---- What becomes of a switch that has begun ----

  ghost predicate MoreFlags(w: World) {
    w.pending || exists p :: p in w.begins && w.begins[p].Planned?
  }

  /** The plan is yet to be set, or it is and the event task has seen or will see the flag. */
  ghost predicate MayHappen(w: World, plan: PlanId) {
    || (plan in w.begins && w.begins[plan].Activated?)
    || (w.slot == Some(plan) && (w.at.Asked? || MoreFlags(w)))
  }

  ghost predicate MaySuspend(w: World, plan: PlanId) {
    MayHappen(w, plan) || w.at == Took(plan)
  }

  /** Some continuation, in which no Object is dropped and no further switch begins, comes to the event. */
  ghost predicate Reaches(w: World, e: Event) {
    exists worlds: seq<World>, steps: seq<Step> :: Leads(w, worlds, steps) && Plain(steps) && e in worlds[|steps|].log
  }

  ghost predicate Plain(steps: seq<Step>) {
    forall k :: 0 <= k < |steps| ==> !steps[k].GiveUp? && !steps[k].Activate?
  }

  lemma AtOnce(w: World, e: Event)
    requires e in w.log
    ensures Reaches(w, e)
  {
    assert Leads(w, [w], []) && Plain([]) && e in [w][0].log;
  }

  lemma OneStepOn(w: World, step: Step, e: Event)
    requires Enabled(w, step) && !step.GiveUp? && !step.Activate? && Reaches(Next(w, step), e)
    ensures Reaches(w, e)
  {
    var worlds: seq<World>, steps: seq<Step> :| Leads(Next(w, step), worlds, steps) && Plain(steps) && e in worlds[|steps|].log;
    var worlds', steps' := [w] + worlds, [step] + steps;
    assert worlds'[|steps'|] == worlds[|steps|];
    assert Leads(w, worlds', steps') && Plain(steps');
  }

  /** With the plan in hand. */
  lemma TookReaches(w: World, plan: PlanId)
    requires w.at == Took(plan) && Completed(plan) in w.log
    ensures Reaches(w, Completed(plan)) && Reaches(w, Suspended(plan))
  {
    AtOnce(w, Completed(plan));
    AtOnce(Next(w, Suspend), Suspended(plan));
    OneStepOn(w, Suspend, Suspended(plan));
  }

  lemma BothOneStepOn(w: World, step: Step, plan: PlanId)
    requires Enabled(w, step) && !step.GiveUp? && !step.Activate?
    requires Reaches(Next(w, step), Completed(plan)) && Reaches(Next(w, step), Suspended(plan))
    ensures Reaches(w, Completed(plan)) && Reaches(w, Suspended(plan))
  {
    OneStepOn(w, step, Completed(plan));
    OneStepOn(w, step, Suspended(plan));
  }

  /** With the plan set and the flag raised, or seen by the event task. */
  lemma FlaggedReaches(w: World, plan: PlanId)
    requires w.slot == Some(plan) && (w.pending || w.at.Asked?)
    ensures Reaches(w, Completed(plan)) && Reaches(w, Suspended(plan))
    decreases match w.at case Asked(_) => 0 case Wrote(_) => 1 case Idle => 2 case Took(_) => 3
  {
    match w.at
    case Asked(_) =>
      TookReaches(Next(w, Take), plan);
      BothOneStepOn(w, Take, plan);
    case Wrote(_) =>
      FlaggedReaches(Next(w, Swap), plan);
      BothOneStepOn(w, Swap, plan);
    case Idle =>
      FlaggedReaches(Next(w, Send), plan);
      BothOneStepOn(w, Send, plan);
    case Took(_) =>
      FlaggedReaches(Next(w, Suspend), plan);
      BothOneStepOn(w, Suspend, plan);
  }

  lemma SetReaches(w: World, plan: PlanId)
    requires w.slot == Some(plan) && (w.at.Asked? || MoreFlags(w))
    ensures Reaches(w, Completed(plan)) && Reaches(w, Suspended(plan))
  {
    if w.pending || w.at.Asked? {
      FlaggedReaches(w, plan);
    } else {
      var p :| p in w.begins && w.begins[p].Planned?;
      FlaggedReaches(Next(w, Flag(p)), plan);
      BothOneStepOn(w, Flag(p), plan);
    }
  }

  lemma BegunReaches(w: World, plan: PlanId)
    requires MayHappen(w, plan)
    ensures Reaches(w, Completed(plan)) && Reaches(w, Suspended(plan))
  {
    if plan in w.begins && w.begins[plan].Activated? {
      var w' := Next(w, SetPlan(plan));
      assert plan in w'.begins && w'.begins[plan].Planned?;
      SetReaches(w', plan);
      BothOneStepOn(w, SetPlan(plan), plan);
    } else {
      SetReaches(w, plan);
    }
  }

  /** Whatever happens, more switches and dropped Objects included, lost is lost. */
  lemma {:induction false} LostForGood(w: World, worlds: seq<World>, steps: seq<Step>, n: nat, plan: PlanId)
    requires plan < w.nextPlan && Leads(w, worlds, steps) && n < |worlds|
    ensures plan < worlds[n].nextPlan
    ensures !MayHappen(w, plan) ==>
      !MayHappen(worlds[n], plan) && (Completed(plan) in worlds[n].log ==> Completed(plan) in w.log)
    ensures !MaySuspend(w, plan) ==>
      !MaySuspend(worlds[n], plan) && (Suspended(plan) in worlds[n].log ==> Suspended(plan) in w.log)
  {
    if n > 0 {
      LostForGood(w, worlds, steps, n - 1, plan);
      StepLeavesLost(worlds[n - 1], steps[n - 1], worlds[n], plan);
    }
  }

  lemma StepLeavesLost(w: World, step: Step, w': World, plan: PlanId)
    requires plan < w.nextPlan && Enabled(w, step) && w' == Next(w, step)
    ensures plan < w'.nextPlan
    ensures !MayHappen(w, plan) ==> !MayHappen(w', plan) && (Completed(plan) in w'.log ==> Completed(plan) in w.log)
    ensures !MaySuspend(w, plan) ==> !MaySuspend(w', plan) && (Suspended(plan) in w'.log ==> Suspended(plan) in w.log)
  {
  }

  /** A switch that has begun and not happened can still happen exactly while its plan is on its way to the event task. */
  lemma HappensExactly(w: World, plan: PlanId)
    requires Inv(w) && Untaken(w, plan)
    ensures Reaches(w, Completed(plan)) <==> MayHappen(w, plan)
    ensures Suspended(plan) !in w.log && (Reaches(w, Suspended(plan)) <==> MaySuspend(w, plan))
  {
    if MayHappen(w, plan) {
      BegunReaches(w, plan);
    } else {
      NeverReaches(w, plan);
    }
  }

  lemma NeverReaches(w: World, plan: PlanId)
    requires Inv(w) && Untaken(w, plan) && !MayHappen(w, plan)
    ensures !Reaches(w, Completed(plan)) && !Reaches(w, Suspended(plan)) && !MaySuspend(w, plan)
  {
    forall worlds: seq<World>, steps: seq<Step> | Leads(w, worlds, steps)
      ensures Completed(plan) !in worlds[|steps|].log && Suspended(plan) !in worlds[|steps|].log
    {
      LostForGood(w, worlds, steps, |steps|, plan);
    }
  }

  /**
   A step takes away the last chance that a switch suspends the other subscription exactly if
   it does just that, or sets another plan over it, or drops the Object that was to complete
   it: with the plan in hand, or with the flag lowered for it and no other being raised.
   */
  lemma LostExactly(w: World, step: Step, plan: PlanId)
    requires Inv(w) && Enabled(w, step) && MaySuspend(w, plan)
    ensures !MaySuspend(Next(w, step), plan) <==>
      || (step.Suspend? && w.at == Took(plan))
      || (step.SetPlan? && step.p != plan && w.slot == Some(plan))
      || (step.GiveUp? && (w.at == Took(plan) || (w.at.Asked? && w.slot == Some(plan) && !MoreFlags(w))))
  {
    var w' := Next(w, step);
    forall p | p in w.begins && w.begins[p].Planned? ensures w'.pending || (p in w'.begins && w'.begins[p].Planned?) {}
    if step.SetPlan? {
      assert step.p in w'.begins && w'.begins[step.p].Planned?;
    }
  }

  // ---- Runs that go wrong ----

  lemma Extend(worlds: seq<World>, steps: seq<Step>, step: Step, w: World)
    returns (worlds': seq<World>, steps': seq<Step>)
    requires Leads(START, worlds, steps) && Enabled(worlds[|steps|], step) && Next(worlds[|steps|], step) == w
    ensures Leads(START, worlds', steps') && worlds'[|steps'|] == w && steps' == steps + [step]
  {
    worlds', steps' := worlds + [w], steps + [step];
  }

  /** A switch begins, its subscription delivers, and the event task has lowered the flag for it. */
  lemma AskedForTheFirst() returns (worlds: seq<World>, steps: seq<Step>)
    ensures Leads(START, worlds, steps)
    ensures worlds[|steps|] == World(map[], Some(0), false, Asked(1), 1, [Began(0), Sent])
  {
    worlds, steps := Extend([START], [], Activate, World(map[0 := Activated], None, false, Idle, 1, [Began(0)]));
    worlds, steps := Extend(worlds, steps, SetPlan(0), World(map[0 := Planned], Some(0), false, Idle, 1, [Began(0)]));
    worlds, steps := Extend(worlds, steps, Flag(0), World(map[], Some(0), true, Idle, 1, [Began(0)]));
    worlds, steps := Extend(worlds, steps, Send, World(map[], Some(0), true, Wrote(1), 1, [Began(0), Sent]));
    worlds, steps := Extend(worlds, steps, Swap, World(map[], Some(0), false, Asked(1), 1, [Began(0), Sent]));
  }

  /** The Object is dropped there: the plan stays set, and nothing will ever take it. */
  lemma DroppedSwitch() returns (worlds: seq<World>, steps: seq<Step>)
    ensures Leads(START, worlds, steps)
    ensures
      var w := worlds[|steps|];
      && w.slot == Some(0) && Sent in w.log && Completed(0) !in w.log
      && !Reaches(w, Completed(0)) && !Reaches(w, Suspended(0))
  {
    worlds, steps := AskedForTheFirst();
    var w := World(map[], Some(0), false, Idle, 1, [Began(0), Sent]);
    worlds, steps := Extend(worlds, steps, GiveUp, w);
    RunKeepsInv(START, worlds, steps, |steps|);
    NeverReaches(w, 0);
  }

  /** Another switch begins there: it happens, and suspends, for an Object delivered before it began. */
  lemma SuspendedEarly() returns (worlds: seq<World>, steps: seq<Step>)
    ensures Leads(START, worlds, steps)
    ensures worlds[|steps|].log == [Began(0), Sent, Began(1), Completed(1), Suspended(1)]
    ensures !Orderly(worlds[|steps|].log)
  {
    worlds, steps := AskedForTheFirst();
    var log := [Began(0), Sent, Began(1)];
    worlds, steps := Extend(worlds, steps, Activate, World(map[1 := Activated], Some(0), false, Asked(1), 2, log));
    worlds, steps := Extend(worlds, steps, SetPlan(1), World(map[1 := Planned], Some(1), false, Asked(1), 2, log));
    worlds, steps := Extend(worlds, steps, Take, World(map[1 := Planned], None, false, Took(1), 2, log + [Completed(1)]));
    worlds, steps := Extend(worlds, steps, Suspend, World(map[1 := Planned], None, false, Idle, 2, log + [Completed(1)] + [Suspended(1)]));
    var whole := worlds[|steps|].log;
    assert whole == [Began(0), Sent, Began(1), Completed(1), Suspended(1)];
    assert whole[3].Completed? && whole[..3] == log && !DeliveredSince(log, 1);
  }
}
