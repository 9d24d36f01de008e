/**
 How often switches send PUBLISH_DONE to a subscription.
 */
module SwitchDone {
  import opened Locations
  import opened SubscriptionStates
  import opened Switching

  /** The plan was to switch away from the subscription and asked for PUBLISH_DONE. */
  ghost predicate Asked(log: seq<Event>, plan: PlanId, away: RequestId) {
    exists r :: Began(plan, r, away, true) in log
  }

  /** The switch has stopped the subscription: it was cut, or its drain came to its end. */
  ghost predicate Stopped(log: seq<Event>, plan: PlanId, r: RequestId) {
    Cut(plan, r) in log || Drained(plan, r) in log
  }

  /** PUBLISH_DONE was sent exactly by the switches that asked for it and have stopped the subscription. */
  ghost predicate DoneIsRight(log: seq<Event>) {
    forall p, r :: SwitchedAway(p, r) in log <==> Asked(log, p, r) && Stopped(log, p, r)
  }

  ghost predicate PlansAsked(w: World) {
    forall r, away :: r in w.plans ==>
      (Asked(w.log, w.plans[r].id, away) <==> w.plans[r].publishDone && away == w.plans[r].suspending)
  }

  ghost predicate DrainsAsked(w: World) {
    forall r :: r in w.subs && w.subs[r].state.softSuspended ==>
      (Asked(w.log, w.subs[r].drain, r) <==> w.subs[r].state.publishDoneAtEnd)
  }

  ghost predicate AskedFor(w: World) {
    DoneIsRight(w.log) && PlansAsked(w) && DrainsAsked(w)
  }

  lemma AskedAfter(log: seq<Event>, e: Event, plan: PlanId, away: RequestId)
    ensures Asked(log + [e], plan, away) <==> Asked(log, plan, away) || (e.Began? && e.plan == plan && e.away == away && e.publishDone)
  {
    if e.Began? && e.plan == plan && e.away == away && e.publishDone {
      assert e == Began(plan, e.sub, away, true) && e in log + [e];
    }
  }

  /** An event that begins no switch, stops nothing and sends no PUBLISH_DONE. */
  lemma EventKeepsAsked(w: World, e: Event)
    requires AskedFor(w) && (e.Sent? || e.Completed? || e.CutShort? || e.DrainedShort?)
    ensures AskedFor(w.Log(e))
  {
    forall p, r ensures Asked(w.log + [e], p, r) <==> Asked(w.log, p, r) {
      AskedAfter(w.log, e, p, r);
    }
  }

  /** A switch stops a subscription, and sends PUBLISH_DONE exactly if it asked for it. */
  lemma StopKeepsAsked(w: World, e: Event, publishDone: bool)
    requires AskedFor(w) && (e.Cut? || e.Drained?) && (publishDone <==> Asked(w.log, e.plan, e.sub))
    ensures AskedFor(if publishDone then w.Log(e).Log(SwitchedAway(e.plan, e.sub)) else w.Log(e))
  {
    var done := SwitchedAway(e.plan, e.sub);
    var after := if publishDone then w.log + [e] + [done] else w.log + [e];
    forall p, r ensures Asked(after, p, r) <==> Asked(w.log, p, r) {
      AskedAfter(w.log, e, p, r);
      AskedAfter(w.log + [e], done, p, r);
    }
    assert e in after;
    forall p, r ensures SwitchedAway(p, r) in after <==> Asked(after, p, r) && Stopped(after, p, r) {
      assert Stopped(after, p, r) <==> Stopped(w.log, p, r) || (p == e.plan && r == e.sub);
    }
  }

  lemma PutKeepsAsked(w: World, r: RequestId, sub: Sub)
    requires AskedFor(w)
    requires sub.state.softSuspended ==> (Asked(w.log, sub.drain, r) <==> sub.state.publishDoneAtEnd)
    ensures AskedFor(w.Put(r, sub))
  {
  }

  lemma CutKeepsAsked(w: World, plan: Plan)
    requires AskedFor(w) && (plan.publishDone <==> Asked(w.log, plan.id, plan.suspending))
    ensures AskedFor(CutSuspending(w, plan))
  {
    if plan.suspending in w.subs {
      var former := w.subs[plan.suspending];
      var cut := former.(state := former.state.(forward := false));
      PutKeepsAsked(w, plan.suspending, cut);
      StopKeepsAsked(w.Put(plan.suspending, cut), Cut(plan.id, plan.suspending), plan.publishDone);
    }
  }

  lemma CompleteKeepsAsked(w: World, r: RequestId, delivered: U64)
    requires AskedFor(w)
    ensures AskedFor(CompleteSwitch(w, r, delivered))
  {
    if r in w.plans {
      var plan := w.plans[r];
      var w1 := w.(plans := w.plans - {r}, activated := w.activated + {plan.id});
      EventKeepsAsked(w1, Completed(plan.id));
      AskedAfter(w.log, Completed(plan.id), plan.id, plan.suspending);
      CutKeepsAsked(w1.Log(Completed(plan.id)), plan);
    }
  }

  lemma DeliveredKeepsAsked(w: World, r: RequestId, l: Location, datagram: bool)
    requires AskedFor(w) && r in w.subs
    ensures AskedFor(Delivered(w, r, l, datagram))
  {
    var sub := w.subs[r];
    var w1 := w.Log(Sent(r, l, datagram));
    EventKeepsAsked(w, Sent(r, l, datagram));
    if sub.pendingSwitch {
      AskedAfter(w.log, Sent(r, l, datagram), sub.drain, r);
      PutKeepsAsked(w1, r, sub.(pendingSwitch := false));
      CompleteKeepsAsked(w1.Put(r, sub.(pendingSwitch := false)), r, l.group);
    }
  }

  lemma DrainKeepsAsked(w: World, r: RequestId)
    requires AskedFor(w) && r in w.subs
    ensures AskedFor(FinishSoftDrain(w, r))
  {
    var sub := w.subs[r];
    if sub.state.softSuspended {
      var done := Drain(sub).(finished := sub.finished || sub.state.publishDoneAtEnd);
      PutKeepsAsked(w, r, done);
      StopKeepsAsked(w.Put(r, done), Drained(sub.drain, r), sub.state.publishDoneAtEnd);
    }
  }

  lemma TakenShortKeepsAsked(w: World, r: RequestId, stage: Stage)
    requires AskedFor(w)
    ensures AskedFor(TakenShort(w, r, stage))
  {
    if (stage.AfterTake? || stage.AfterCut?) && r in w.plans {
      var plan := w.plans[r];
      var w1 := w.(plans := w.plans - {r}, activated := w.activated + {plan.id});
      EventKeepsAsked(w1, Completed(plan.id));
      var w2 := w1.Log(Completed(plan.id));
      if stage.AfterCut? && plan.mode == Hard && plan.suspending in w2.subs {
        var former := w2.subs[plan.suspending];
        var cut := former.(state := former.state.(forward := false));
        PutKeepsAsked(w2, plan.suspending, cut);
        EventKeepsAsked(w2.Put(plan.suspending, cut), CutShort(plan.id, plan.suspending));
      }
    }
  }

  lemma DeliveredShortKeepsAsked(w: World, r: RequestId, l: Location, datagram: bool, stage: Stage)
    requires AskedFor(w) && r in w.subs
    ensures AskedFor(DeliveredShort(w, r, l, datagram, stage))
  {
    var sub := w.subs[r];
    var w1 := w.Log(Sent(r, l, datagram));
    EventKeepsAsked(w, Sent(r, l, datagram));
    if sub.pendingSwitch {
      AskedAfter(w.log, Sent(r, l, datagram), sub.drain, r);
      PutKeepsAsked(w1, r, sub.(pendingSwitch := false));
      TakenShortKeepsAsked(w1.Put(r, sub.(pendingSwitch := false)), r, stage);
    }
  }

  lemma DrainShortKeepsAsked(w: World, r: RequestId)
    requires AskedFor(w) && r in w.subs
    ensures AskedFor(DrainShort(w, r))
  {
    var sub := w.subs[r];
    if sub.state.softSuspended {
      EventKeepsAsked(w, DrainedShort(sub.drain, r));
      PutKeepsAsked(w.Log(DrainedShort(sub.drain, r)), r, Drain(sub));
    }
  }

  lemma ActivateKeepsAsked(w: World, r: RequestId, state: SubscriptionState, away: RequestId, publishDone: bool)
    requires AskedFor(w) && Inv(w) && r in w.subs && !state.softSuspended
    ensures AskedFor(Activate(w, r, state, away, publishDone))
    ensures forall o :: Asked(Activate(w, r, state, away, publishDone).log, w.nextPlan, o) <==> publishDone && o == away
  {
    var sub := w.subs[r].(state := state, awaiting := None);
    var began := Began(w.nextPlan, r, away, publishDone);
    var w0 := w.(nextPlan := w.nextPlan + 1).Put(r, sub);
    PutKeepsAsked(w.(nextPlan := w.nextPlan + 1), r, sub);
    forall p, o ensures Asked(w.log + [began], p, o) <==> Asked(w.log, p, o) || (p == w.nextPlan && o == away && publishDone) {
      AskedAfter(w.log, began, p, o);
    }
    assert DoneIsRight(w0.Log(began).log);
    assert PlansAsked(w0.Log(began)) && DrainsAsked(w0.Log(began));
  }

  lemma SetPlanKeepsAsked(w: World, r: RequestId, plan: Plan)
    requires AskedFor(w) && r in w.subs
    requires forall o :: Asked(w.log, plan.id, o) <==> plan.publishDone && o == plan.suspending
    ensures AskedFor(SetPlan(w, r, plan))
  {
    PutKeepsAsked(w.(plans := w.plans[r := plan]), r, w.subs[r].(pendingSwitch := true));
  }

  lemma BeginKeepsAsked(
    w: World, r: RequestId, suspending: RequestId, mode: Mode, publishDone: bool,
    filter: Option<LocationFilter>, largest: Option<Location>)
    requires AskedFor(w) && Inv(w) && r in w.subs
    ensures AskedFor(BeginSwitch(w, r, suspending, mode, publishDone, filter, largest))
  {
    var state := ActivatedState(w.subs[r].state, filter, largest);
    var boundary := if state.start.Some? then Some(state.start.value.group) else None;
    var plan := Plan(w.nextPlan, suspending, mode, publishDone, boundary);
    ActivateKeepsAsked(w, r, state, suspending, publishDone);
    var w1 := Activate(w, r, state, suspending, publishDone);
    if boundary.Some? {
      SetPlanKeepsAsked(SuspendAt(w1, plan, boundary.value), r, plan);
    } else {
      SetPlanKeepsAsked(w1, r, plan);
    }
  }

  lemma StepKeepsAsked(w: World, step: Step)
    requires AskedFor(w) && Inv(w) && Enabled(w, step)
    ensures AskedFor(Next(w, step))
  {
    match step
    case Begin(r, suspending, mode, publishDone, filter, largest) =>
      BeginKeepsAsked(w, r, suspending, mode, publishDone, filter, largest);
    case Object(r, l, passes, written) =>
      DrainKeepsAsked(w, r);
      DeliveredKeepsAsked(w, r, l, false);
    case Datagram(r, l, passes, written) => DeliveredKeepsAsked(w, r, l, true);
    case Dropped(r, l, passes, datagram, stage) =>
      DrainShortKeepsAsked(w, r);
      DeliveredShortKeepsAsked(w, r, l, datagram, stage);
    case Unsubscribe(r) =>
    case _ => PutKeepsAsked(w, step.r, Next(w, step).subs[step.r]);
  }

  lemma {:induction false} RunKeepsAsked(worlds: seq<World>, steps: seq<Step>, n: nat)
    requires IsRun(worlds, steps) && n < |worlds|
    ensures AskedFor(worlds[n])
  {
    if n > 0 {
      RunKeepsAsked(worlds, steps, n - 1);
      RunKeepsInv(worlds, steps, n - 1);
      StepKeepsAsked(worlds[n - 1], steps[n - 1]);
    }
  }

  /**
   In every run a switch sends PUBLISH_DONE exactly if it asked for it and has stopped the
   subscription it leaves, and then once. So a subscription is sent it at most once
   exactly if at most one of the switches that asked has stopped it.
   */
  lemma DoneExactly(worlds: seq<World>, steps: seq<Step>, n: nat, r: RequestId)
    requires IsRun(worlds, steps) && n < |worlds|
    ensures
      var log := worlds[n].log;
      && (forall p :: SwitchedAway(p, r) in log <==> Asked(log, p, r) && Stopped(log, p, r))
      && (AtMostOneDone(log, r) <==>
            forall p, q :: Asked(log, p, r) && Stopped(log, p, r) && Asked(log, q, r) && Stopped(log, q, r) ==> p == q)
  {
    var log := worlds[n].log;
    RunKeepsAsked(worlds, steps, n);
    SwitchesAreOrderly(worlds, steps, n);
    if AtMostOneDone(log, r) {
      forall p, q | SwitchedAway(p, r) in log && SwitchedAway(q, r) in log ensures p == q {
        var i :| 0 <= i < |log| && log[i] == SwitchedAway(p, r);
        var j :| 0 <= j < |log| && log[j] == SwitchedAway(q, r);
        assert i == j;
      }
    } else {
      var i, j :| 0 <= i < j < |log| && log[i].SwitchedAway? && log[j].SwitchedAway? && log[i].sub == log[j].sub == r;
      assert log[i] in log && log[j] in log;
      assert log[i] == SwitchedAway(log[i].plan, r) && log[j] == SwitchedAway(log[j].plan, r);
    }
  }

  ghost predicate AtMostOneDone(log: seq<Event>, r: RequestId) {
    forall i, j :: 0 <= i < j < |log| && log[i].SwitchedAway? && log[j].SwitchedAway? ==> !(log[i].sub == log[j].sub == r)
  }

  /** A hard switch from subscription 2, which asks for PUBLISH_DONE and completes. */
  lemma HardSwitchFromTwo(worlds: seq<World>, steps: seq<Step>, r: RequestId)
    returns (worlds': seq<World>, steps': seq<Step>)
    requires IsRun(worlds, steps)
    requires
      var w := worlds[|steps|];
      && r in w.subs && r != 2 && 2 in w.subs && w.plans == map[]
      && w.subs[r] == Sub(FRESH.(forward := false), 0, None, false, false)
    ensures IsRun(worlds', steps')
    ensures
      var w, w' := worlds[|steps|], worlds'[|steps'|];
      && w'.log == w.log + [Began(w.nextPlan, r, 2, true), Sent(r, Location(1, 0), false),
                            Completed(w.nextPlan), Cut(w.nextPlan, 2), SwitchedAway(w.nextPlan, 2)]
      && w'.nextPlan == w.nextPlan + 1 && w'.plans == map[] && 2 in w'.subs
      && (forall o :: o in w.subs && o != 2 && o != r ==> o in w'.subs && w'.subs[o] == w.subs[o])
  {
    var w := worlds[|steps|];
    var begun := BeginSwitch(w, r, 2, Hard, true, None, None);
    assert begun.subs[r] == Sub(FRESH, 0, None, true, false);
    var delivered := Delivered(begun, r, Location(1, 0), false);
    worlds', steps' := Extend(worlds, steps, Begin(r, 2, Hard, true, None, None), begun);
    worlds', steps' := Extend(worlds', steps', Object(r, Location(1, 0), true, true), delivered);
  }

  /** A run with two such switches: a cut does not end the subscription, so it is sent PUBLISH_DONE twice. */
  lemma DoneTwice() returns (worlds: seq<World>, steps: seq<Step>)
    ensures IsRun(worlds, steps)
    ensures SwitchedAway(0, 2) in worlds[|steps|].log && SwitchedAway(1, 2) in worlds[|steps|].log
  {
    var w0 := World(map[], map[], {}, 0, []);
    var idle := Sub(FRESH.(forward := false), 0, None, false, false);
    var w1 := w0.Put(2, Sub(FRESH, 0, None, false, false));
    worlds, steps := Extend([w0], [], Subscribe(2, NoFilter, true), w1);
    worlds, steps := Extend(worlds, steps, Subscribe(4, NoFilter, false), w1.Put(4, idle));
    worlds, steps := Extend(worlds, steps, Subscribe(6, NoFilter, false), w1.Put(4, idle).Put(6, idle));
    worlds, steps := HardSwitchFromTwo(worlds, steps, 4);
    assert worlds[|steps|].log[4] == SwitchedAway(0, 2);
    ghost var log := worlds[|steps|].log;
    worlds, steps := HardSwitchFromTwo(worlds, steps, 6);
    assert worlds[|steps|].log[4] == log[4] && worlds[|steps|].log[9] == SwitchedAway(1, 2);
  }
}
