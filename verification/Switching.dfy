/**
 Track switches among the subscriptions of one subscriber.

 A switch is scheduled on the subscription it activates. A hard one cuts the suspended
 subscription when the activating one first delivers; a soft one gives it a last group
 and lets it drain. The log records what was sent and done, in order, and the results
 are about the log of every run.
 */
module Switching {
  import opened Locations
  import opened SubscriptionStates

  type RequestId = U64
  type PlanId = nat

  datatype Mode = Soft | Hard

  /** `id` tells plans apart; the relay shares one activation flag per plan instead. */
  datatype Plan = Plan(id: PlanId, suspending: RequestId, mode: Mode, publishDone: bool, boundary: Option<U64>)

  /** `drain` is the plan of the last suspension, and `awaiting` the one whose activation it holds. */
  datatype Sub = Sub(
    state: SubscriptionState, drain: PlanId, awaiting: Option<PlanId>, pendingSwitch: bool, finished: bool)

  datatype Event =
    /** A switch to `sub` away from `away`, and whether PUBLISH_DONE was asked for. */
    | Began(plan: PlanId, sub: RequestId, away: RequestId, publishDone: bool)
    | Sent(sub: RequestId, location: Location, datagram: bool)
    | Completed(plan: PlanId)
    /** Forward State 0, set by a hard switch. */
    | Cut(plan: PlanId, sub: RequestId)
    /** The same, by a switch that was given up before it reset streams or sent PUBLISH_DONE. */
    | CutShort(plan: PlanId, sub: RequestId)
    /** A drain came to its end. */
    | Drained(plan: PlanId, sub: RequestId)
    /** The same, given up before PUBLISH_DONE could be sent. */
    | DrainedShort(plan: PlanId, sub: RequestId)
    /** PUBLISH_DONE sent because a switch asked for it. */
    | SwitchedAway(plan: PlanId, sub: RequestId)

  datatype World = World(
    subs: map<RequestId, Sub>, plans: map<RequestId, Plan>, activated: set<PlanId>, nextPlan: PlanId, log: seq<Event>)
  {
    function Log(event: Event): World {
      this.(log := log + [event])
    }

    function Put(r: RequestId, sub: Sub): World {
      this.(subs := subs[r := sub])
    }
  }

  // ---- What the relay does ----

  /** Tells the subscription a soft switch suspends where to stop. */
  function SuspendAt(w: World, plan: Plan, boundary: U64): World {
    if plan.mode != Soft || boundary == 0 || plan.suspending !in w.subs then w
    else
      var former := w.subs[plan.suspending];
      w.Put(plan.suspending, former.(
              state := former.state.SuspendedAt(boundary, plan.publishDone), drain := plan.id, awaiting := Some(plan.id)))
  }

  function CutSuspending(w: World, plan: Plan): World {
    if plan.suspending !in w.subs then w
    else
      var former := w.subs[plan.suspending];
      var cut := w.Put(plan.suspending, former.(state := former.state.(forward := false))).Log(Cut(plan.id, plan.suspending));
      if plan.publishDone then cut.Log(SwitchedAway(plan.id, plan.suspending)) else cut
  }

  /** What a switch makes of the state of the subscription it activates. */
  function ActivatedState(state: SubscriptionState, filter: Option<LocationFilter>, largest: Option<Location>): SubscriptionState {
    var adopted := if filter.Some? then state.WithLocationFilter(filter.value, largest) else state;
    adopted.(forward := true, softSuspended := false, publishDoneAtEnd := false)
  }

  function Activate(w: World, r: RequestId, state: SubscriptionState, away: RequestId, publishDone: bool): World
    requires r in w.subs
  {
    w.(nextPlan := w.nextPlan + 1).Put(r, w.subs[r].(state := state, awaiting := None)).Log(Began(w.nextPlan, r, away, publishDone))
  }

  function SetPlan(w: World, r: RequestId, plan: Plan): World
    requires r in w.subs
  {
    w.(plans := w.plans[r := plan]).Put(r, w.subs[r].(pendingSwitch := true))
  }

  function BeginSwitch(
    w: World, r: RequestId, suspending: RequestId, mode: Mode, publishDone: bool,
    filter: Option<LocationFilter>, largest: Option<Location>): World
    requires r in w.subs
  {
    var state := ActivatedState(w.subs[r].state, filter, largest);
    var boundary := if state.start.Some? then Some(state.start.value.group) else None;
    var plan := Plan(w.nextPlan, suspending, mode, publishDone, boundary);
    var w1 := Activate(w, r, state, suspending, publishDone);
    var w2 := if boundary.Some? then SuspendAt(w1, plan, boundary.value) else w1;
    SetPlan(w2, r, plan)
  }

  function CompleteSwitch(w: World, r: RequestId, delivered: U64): World {
    if r !in w.plans then w
    else
      var plan := w.plans[r];
      var w' := w.(plans := w.plans - {r}, activated := w.activated + {plan.id}).Log(Completed(plan.id));
      match plan.mode
      case Soft => if plan.boundary.None? then SuspendAt(w', plan, delivered) else w'
      case Hard => CutSuspending(w', plan)
  }

  /** An Object went out: the first one after a switch began completes it. */
  function Delivered(w: World, r: RequestId, l: Location, datagram: bool): World
    requires r in w.subs
  {
    var sub := w.subs[r];
    var w' := w.Log(Sent(r, l, datagram));
    if sub.pendingSwitch then CompleteSwitch(w'.Put(r, sub.(pendingSwitch := false)), r, l.group) else w'
  }

  /** Where the event loop gives up a delivery that would complete a switch. */
  datatype Stage = BeforeSwap | BeforeTake | AfterTake | AfterCut

  /** An Object went out, and then the event loop gave it up: what was done of completing a switch. */
  function DeliveredShort(w: World, r: RequestId, l: Location, datagram: bool, stage: Stage): World
    requires r in w.subs
  {
    var sub := w.subs[r];
    var w' := w.Log(Sent(r, l, datagram));
    if !sub.pendingSwitch || stage.BeforeSwap? then w'
    else TakenShort(w'.Put(r, sub.(pendingSwitch := false)), r, stage)
  }

  function TakenShort(w: World, r: RequestId, stage: Stage): World {
    if stage.BeforeSwap? || stage.BeforeTake? || r !in w.plans then w
    else
      var plan := w.plans[r];
      var w' := w.(plans := w.plans - {r}, activated := w.activated + {plan.id}).Log(Completed(plan.id));
      if stage.AfterTake? || plan.mode != Hard || plan.suspending !in w'.subs then w'
      else
        var former := w'.subs[plan.suspending];
        w'.Put(plan.suspending, former.(state := former.state.(forward := false))).Log(CutShort(plan.id, plan.suspending))
  }

  function Drain(sub: Sub): Sub {
    sub.(state := sub.state.(softSuspended := false, forward := false, publishDoneAtEnd := false), awaiting := None)
  }

  function FinishSoftDrain(w: World, r: RequestId): World
    requires r in w.subs
  {
    var sub := w.subs[r];
    if !sub.state.softSuspended then w
    else
      var done := Drain(sub);
      var drained := w.Log(Drained(sub.drain, r));
      if sub.state.publishDoneAtEnd then drained.Put(r, done.(finished := true)).Log(SwitchedAway(sub.drain, r))
      else drained.Put(r, done)
  }

  function DrainShort(w: World, r: RequestId): World
    requires r in w.subs
  {
    var sub := w.subs[r];
    if !sub.state.softSuspended then w else w.Log(DrainedShort(sub.drain, r)).Put(r, Drain(sub))
  }

  /** A subgroup Object that reached the subscription; `written` says whether it could be written. */
  function OnObject(w: World, r: RequestId, l: Location, passes: bool, written: bool): World
    requires r in w.subs
  {
    match w.subs[r].state.VerdictOn(l, passes)
    case PastEnd => FinishSoftDrain(w, r)
    case Deliver => if written then Delivered(w, r, l, false) else w
    case _ => w
  }

  /** What a datagram is held against: no end while the switch that set it is not known to be real. */
  function DatagramState(w: World, r: RequestId): SubscriptionState
    requires r in w.subs
  {
    var sub := w.subs[r];
    var held := sub.awaiting.Some? && sub.awaiting.value !in w.activated;
    if held then sub.state.(endGroup := None) else sub.state
  }

  function OnDatagram(w: World, r: RequestId, l: Location, passes: bool, written: bool): World
    requires r in w.subs
  {
    if DatagramState(w, r).VerdictOn(l, passes) == Deliver && written then Delivered(w, r, l, true) else w
  }

  function OnDropped(w: World, r: RequestId, l: Location, passes: bool, datagram: bool, stage: Stage): World
    requires r in w.subs
  {
    match (if datagram then DatagramState(w, r) else w.subs[r].state).VerdictOn(l, passes)
    case PastEnd => if datagram then w else DrainShort(w, r)
    case Deliver => DeliveredShort(w, r, l, datagram, stage)
    case _ => w
  }

  datatype Step =
    | Subscribe(r: RequestId, filter: LocationFilter, forward: bool)
    | Unsubscribe(r: RequestId)
    | Update(r: RequestId, newFilter: Option<LocationFilter>, newForward: Option<bool>)
    | ResolveLiveStart(r: RequestId, largest: Option<Location>)
    | Begin(r: RequestId, suspending: RequestId, mode: Mode, publishDone: bool,
        switchFilter: Option<LocationFilter>, largest: Option<Location>)
    | Object(r: RequestId, l: Location, passes: bool, written: bool)
    | Datagram(r: RequestId, l: Location, passes: bool, written: bool)
    /** An Object that is sent, or ends a drain, and is given up in what follows. */
    | Dropped(r: RequestId, l: Location, passes: bool, datagram: bool, stage: Stage)
    | Finish(r: RequestId)

  /** A switch away from itself is refused, and a finished subscription handles no more events. */
  predicate Enabled(w: World, step: Step) {
    match step
    case Subscribe(r, _, _) => r !in w.subs
    case Unsubscribe(r) => r in w.subs
    case Update(r, _, _) => r in w.subs
    case ResolveLiveStart(r, _) => r in w.subs
    case Begin(r, suspending, _, _, _, _) => r in w.subs && suspending != r
    case Object(r, _, _, _) => r in w.subs && !w.subs[r].finished
    case Datagram(r, _, _, _) => r in w.subs && !w.subs[r].finished
    case Dropped(r, _, _, _, _) => r in w.subs && !w.subs[r].finished
    case Finish(r) => r in w.subs
  }

  function Next(w: World, step: Step): World
    requires Enabled(w, step)
  {
    match step
    case Subscribe(r, filter, forward) =>
      w.Put(r, Sub(FRESH.WithInitialFilter(filter).(forward := forward), 0, None, false, false))
    case Unsubscribe(r) => w.(subs := w.subs - {r})
    case Update(r, filter, forward) =>
      var sub := w.subs[r];
      var filtered := if filter.Some? then sub.state.WithLocationFilter(filter.value, None) else sub.state;
      w.Put(r, sub.(state := if forward.Some? then filtered.(forward := forward.value) else filtered))
    case ResolveLiveStart(r, largest) =>
      var sub := w.subs[r];
      w.Put(r, sub.(state := sub.state.WithLiveStart(largest)))
    case Begin(r, suspending, mode, publishDone, filter, largest) =>
      BeginSwitch(w, r, suspending, mode, publishDone, filter, largest)
    case Object(r, l, passes, written) => OnObject(w, r, l, passes, written)
    case Datagram(r, l, passes, written) => OnDatagram(w, r, l, passes, written)
    case Dropped(r, l, passes, datagram, stage) => OnDropped(w, r, l, passes, datagram, stage)
    case Finish(r) => w.Put(r, w.subs[r].(finished := true))
  }

  ghost predicate IsRun(worlds: seq<World>, steps: seq<Step>) {
    && |worlds| == |steps| + 1
    && worlds[0] == World(map[], map[], {}, 0, [])
    && forall k :: 0 <= k < |steps| ==> Enabled(worlds[k], steps[k]) && worlds[k + 1] == Next(worlds[k], steps[k])
  }

  // ---- The log of every run ----

  /** After the plan began, the subscription it activates has delivered something. */
  ghost predicate DeliveredSince(log: seq<Event>, plan: PlanId) {
    exists k, j :: 0 <= k < j < |log| && log[k].Began? && log[k].plan == plan && log[j].Sent? && log[j].sub == log[k].sub
  }

  /** No cut comes before the delivery that justifies it, and nothing happens twice for one plan. */
  ghost predicate LogHolds(log: seq<Event>) {
    && (forall i :: 0 <= i < |log| && IsCut(log[i]) ==> DeliveredSince(log[..i], log[i].plan) && HasCompleted(log[..i], log[i].plan))
    && (forall i, j :: 0 <= i < j < |log| && log[i].Completed? && log[j].Completed? ==> log[i].plan != log[j].plan)
    && (forall i, j :: 0 <= i < j < |log| && log[i].SwitchedAway? && log[j].SwitchedAway? ==> log[i].plan != log[j].plan)
  }

  predicate IsCut(e: Event) {
    e.Cut? || e.CutShort?
  }

  ghost predicate HasBegan(log: seq<Event>, plan: PlanId, r: RequestId) {
    exists k :: 0 <= k < |log| && log[k].Began? && log[k].plan == plan && log[k].sub == r
  }

  ghost predicate HasCompleted(log: seq<Event>, plan: PlanId) {
    exists k :: 0 <= k < |log| && log[k] == Completed(plan)
  }

  ghost predicate HasSwitchedAway(log: seq<Event>, plan: PlanId) {
    exists k :: 0 <= k < |log| && log[k].SwitchedAway? && log[k].plan == plan
  }

  /** The plan has yet to suspend anything. */
  predicate Unspent(plan: Plan) {
    plan.mode == Hard || plan.boundary.None?
  }

  predicate Draining(sub: Sub, plan: PlanId) {
    sub.state.softSuspended && sub.drain == plan
  }

  ghost predicate PlansHold(w: World) {
    && (forall r :: r in w.plans ==>
          && w.plans[r].id < w.nextPlan
          && HasBegan(w.log, w.plans[r].id, r)
          && !HasCompleted(w.log, w.plans[r].id)
          && (Unspent(w.plans[r]) ==> !HasSwitchedAway(w.log, w.plans[r].id)))
    && (forall r, s :: r in w.plans && s in w.plans && w.plans[r].id == w.plans[s].id ==> r == s)
  }

  ghost predicate DrainsHold(w: World) {
    && (forall r :: r in w.subs && w.subs[r].state.softSuspended ==>
          w.subs[r].drain < w.nextPlan && !HasSwitchedAway(w.log, w.subs[r].drain))
    && (forall r, s :: r in w.subs && s in w.plans && Draining(w.subs[r], w.plans[s].id) ==> !Unspent(w.plans[s]))
    && (forall r, s, p :: r in w.subs && s in w.subs && Draining(w.subs[r], p) && Draining(w.subs[s], p) ==> r == s)
  }

  ghost predicate LogIsOld(w: World) {
    forall k :: 0 <= k < |w.log| && !w.log[k].Sent? ==> w.log[k].plan < w.nextPlan
  }

  ghost predicate Inv(w: World) {
    LogHolds(w.log) && PlansHold(w) && DrainsHold(w) && LogIsOld(w)
  }

  /** What one more event changes. */
  lemma OneMore(log: seq<Event>, e: Event, plan: PlanId, r: RequestId)
    ensures HasBegan(log + [e], plan, r) <==> HasBegan(log, plan, r) || (e.Began? && e.plan == plan && e.sub == r)
    ensures HasCompleted(log + [e], plan) <==> HasCompleted(log, plan) || e == Completed(plan)
    ensures HasSwitchedAway(log + [e], plan) <==> HasSwitchedAway(log, plan) || (e.SwitchedAway? && e.plan == plan)
  {
    var after := log + [e];
    assert after[|log|] == e;
    assert forall k :: 0 <= k < |log| ==> after[k] == log[k];
  }

  lemma LogGrows(log: seq<Event>, e: Event)
    requires LogHolds(log)
    requires IsCut(e) ==> DeliveredSince(log, e.plan) && HasCompleted(log, e.plan)
    requires e.Completed? ==> !HasCompleted(log, e.plan)
    requires e.SwitchedAway? ==> !HasSwitchedAway(log, e.plan)
    ensures LogHolds(log + [e])
  {
    var after := log + [e];
    forall i | 0 <= i < |after| && IsCut(after[i]) ensures DeliveredSince(after[..i], after[i].plan) && HasCompleted(after[..i], after[i].plan) {
      assert after[..i] == log[..i];
      if i == |log| {
        assert log[..i] == log;
      }
    }
  }

  lemma EventKeepsPlans(w: World, e: Event)
    requires PlansHold(w)
    requires e.Completed? ==> forall r :: r in w.plans ==> w.plans[r].id != e.plan
    requires e.SwitchedAway? ==> forall r :: r in w.plans && Unspent(w.plans[r]) ==> w.plans[r].id != e.plan
    ensures PlansHold(w.Log(e))
  {
    forall r | r in w.plans
      ensures HasBegan(w.log + [e], w.plans[r].id, r) && !HasCompleted(w.log + [e], w.plans[r].id)
      ensures Unspent(w.plans[r]) ==> !HasSwitchedAway(w.log + [e], w.plans[r].id)
    {
      OneMore(w.log, e, w.plans[r].id, r);
    }
  }

  /** An event that the world allows. */
  lemma EventKeepsInv(w: World, e: Event)
    requires Inv(w) && (e.Sent? || e.plan < w.nextPlan)
    requires IsCut(e) ==> DeliveredSince(w.log, e.plan) && HasCompleted(w.log, e.plan)
    requires e.Completed? ==> !HasCompleted(w.log, e.plan) && forall r :: r in w.plans ==> w.plans[r].id != e.plan
    requires e.SwitchedAway? ==>
      && !HasSwitchedAway(w.log, e.plan)
      && (forall r :: r in w.plans && Unspent(w.plans[r]) ==> w.plans[r].id != e.plan)
      && (forall r :: r in w.subs ==> !Draining(w.subs[r], e.plan))
    ensures Inv(w.Log(e))
  {
    LogGrows(w.log, e);
    EventKeepsPlans(w, e);
  }

  /** A subscription changed without being suspended anew. */
  lemma PutKeepsInv(w: World, r: RequestId, sub: Sub)
    requires Inv(w)
    requires sub.state.softSuspended ==> r in w.subs && w.subs[r].state.softSuspended && w.subs[r].drain == sub.drain
    ensures Inv(w.Put(r, sub))
  {
    var w' := w.Put(r, sub);
    assert PlansHold(w');
    forall o, p | o in w'.subs && Draining(w'.subs[o], p) ensures o in w.subs && Draining(w.subs[o], p) {}
  }

  lemma SuspendKeepsInv(w: World, plan: Plan, boundary: U64)
    requires Inv(w) && plan.id < w.nextPlan && !HasSwitchedAway(w.log, plan.id)
    requires forall r :: r in w.subs ==> !Draining(w.subs[r], plan.id)
    requires forall r :: r in w.plans && w.plans[r].id == plan.id ==> !Unspent(w.plans[r])
    ensures Inv(SuspendAt(w, plan, boundary))
    ensures SuspendAt(w, plan, boundary).log == w.log && SuspendAt(w, plan, boundary).plans == w.plans
    ensures SuspendAt(w, plan, boundary).subs.Keys == w.subs.Keys
    ensures plan.mode == Hard ==> SuspendAt(w, plan, boundary) == w
    ensures SuspendAt(w, plan, boundary).nextPlan == w.nextPlan
  {
    var w' := SuspendAt(w, plan, boundary);
    if w' != w {
      assert PlansHold(w');
      forall o, p | o in w'.subs && o != plan.suspending && Draining(w'.subs[o], p)
        ensures o in w.subs && Draining(w.subs[o], p) && p != plan.id {}
    }
  }

  lemma CutKeepsInv(w: World, plan: Plan)
    requires Inv(w) && plan.id < w.nextPlan && DeliveredSince(w.log, plan.id) && HasCompleted(w.log, plan.id)
    requires !HasSwitchedAway(w.log, plan.id) && forall r :: r in w.subs ==> !Draining(w.subs[r], plan.id)
    requires forall r :: r in w.plans ==> w.plans[r].id != plan.id
    ensures Inv(CutSuspending(w, plan))
  {
    if plan.suspending in w.subs {
      var former := w.subs[plan.suspending];
      var cut := former.(state := former.state.(forward := false));
      PutKeepsInv(w, plan.suspending, cut);
      var w1 := w.Put(plan.suspending, cut);
      EventKeepsInv(w1, Cut(plan.id, plan.suspending));
      var w2 := w1.Log(Cut(plan.id, plan.suspending));
      OneMore(w1.log, Cut(plan.id, plan.suspending), plan.id, 0);
      if plan.publishDone {
        EventKeepsInv(w2, SwitchedAway(plan.id, plan.suspending));
      }
    }
  }

  /** Taking a plan leaves it with nothing done twice. */
  lemma TakeKeepsInv(w: World, r: RequestId)
    requires Inv(w) && r in w.plans
    ensures
      var plan := w.plans[r];
      var w' := w.(plans := w.plans - {r}, activated := w.activated + {plan.id}).Log(Completed(plan.id));
      && Inv(w') && plan.id < w'.nextPlan && HasCompleted(w'.log, plan.id)
      && (forall o :: o in w'.plans ==> w'.plans[o].id != plan.id)
      && (Unspent(plan) ==> !HasSwitchedAway(w'.log, plan.id))
      && (Unspent(plan) ==> forall o :: o in w'.subs ==> !Draining(w'.subs[o], plan.id))
  {
    var plan := w.plans[r];
    var w1 := w.(plans := w.plans - {r}, activated := w.activated + {plan.id});
    assert PlansHold(w1) && DrainsHold(w1);
    EventKeepsInv(w1, Completed(plan.id));
    OneMore(w1.log, Completed(plan.id), plan.id, r);
  }

  lemma CompleteKeepsInv(w: World, r: RequestId, delivered: U64)
    requires Inv(w) && (r in w.plans ==> DeliveredSince(w.log, w.plans[r].id))
    ensures Inv(CompleteSwitch(w, r, delivered))
  {
    if r in w.plans {
      var plan := w.plans[r];
      var w' := w.(plans := w.plans - {r}, activated := w.activated + {plan.id}).Log(Completed(plan.id));
      TakeKeepsInv(w, r);
      match plan.mode
      case Soft =>
        if plan.boundary.None? {
          SuspendKeepsInv(w', plan, delivered);
        }
      case Hard =>
        SinceGrows(w.log, Completed(plan.id), plan.id);
        CutKeepsInv(w', plan);
    }
  }

  lemma SinceGrows(log: seq<Event>, e: Event, plan: PlanId)
    requires DeliveredSince(log, plan)
    ensures DeliveredSince(log + [e], plan)
  {
    var k, j :| 0 <= k < j < |log| && log[k].Began? && log[k].plan == plan && log[j].Sent? && log[j].sub == log[k].sub;
    var after := log + [e];
    assert after[k] == log[k] && after[j] == log[j];
  }

  lemma SentIsSince(log: seq<Event>, plan: PlanId, r: RequestId, l: Location, datagram: bool)
    requires HasBegan(log, plan, r)
    ensures DeliveredSince(log + [Sent(r, l, datagram)], plan)
  {
    var k :| 0 <= k < |log| && log[k].Began? && log[k].plan == plan && log[k].sub == r;
    var after := log + [Sent(r, l, datagram)];
    assert after[k] == log[k] && after[|log|].Sent?;
  }

  lemma DeliveredKeepsInv(w: World, r: RequestId, l: Location, datagram: bool)
    requires Inv(w) && r in w.subs
    ensures Inv(Delivered(w, r, l, datagram))
  {
    var sub := w.subs[r];
    var w1 := w.Log(Sent(r, l, datagram));
    EventKeepsInv(w, Sent(r, l, datagram));
    if sub.pendingSwitch {
      PutKeepsInv(w1, r, sub.(pendingSwitch := false));
      if r in w.plans {
        SentIsSince(w.log, w.plans[r].id, r, l, datagram);
      }
      CompleteKeepsInv(w1.Put(r, sub.(pendingSwitch := false)), r, l.group);
    }
  }

  lemma TakenShortKeepsInv(w: World, r: RequestId, stage: Stage)
    requires Inv(w) && (r in w.plans ==> DeliveredSince(w.log, w.plans[r].id))
    ensures Inv(TakenShort(w, r, stage))
  {
    if (stage.AfterTake? || stage.AfterCut?) && r in w.plans {
      var plan := w.plans[r];
      var w' := w.(plans := w.plans - {r}, activated := w.activated + {plan.id}).Log(Completed(plan.id));
      TakeKeepsInv(w, r);
      SinceGrows(w.log, Completed(plan.id), plan.id);
      if stage.AfterCut? && plan.mode == Hard && plan.suspending in w'.subs {
        var former := w'.subs[plan.suspending];
        var cut := former.(state := former.state.(forward := false));
        PutKeepsInv(w', plan.suspending, cut);
        EventKeepsInv(w'.Put(plan.suspending, cut), CutShort(plan.id, plan.suspending));
      }
    }
  }

  lemma DeliveredShortKeepsInv(w: World, r: RequestId, l: Location, datagram: bool, stage: Stage)
    requires Inv(w) && r in w.subs
    ensures Inv(DeliveredShort(w, r, l, datagram, stage))
  {
    var sub := w.subs[r];
    var w1 := w.Log(Sent(r, l, datagram));
    EventKeepsInv(w, Sent(r, l, datagram));
    if sub.pendingSwitch {
      PutKeepsInv(w1, r, sub.(pendingSwitch := false));
      if r in w.plans {
        SentIsSince(w.log, w.plans[r].id, r, l, datagram);
      }
      TakenShortKeepsInv(w1.Put(r, sub.(pendingSwitch := false)), r, stage);
    }
  }

  lemma DrainShortKeepsInv(w: World, r: RequestId)
    requires Inv(w) && r in w.subs
    ensures Inv(DrainShort(w, r))
  {
    var sub := w.subs[r];
    if sub.state.softSuspended {
      EventKeepsInv(w, DrainedShort(sub.drain, r));
      PutKeepsInv(w.Log(DrainedShort(sub.drain, r)), r, Drain(sub));
    }
  }

  lemma DrainKeepsInv(w: World, r: RequestId)
    requires Inv(w) && r in w.subs
    ensures Inv(FinishSoftDrain(w, r))
  {
    var sub := w.subs[r];
    if sub.state.softSuspended {
      var done := Drain(sub);
      assert Draining(sub, sub.drain);
      EventKeepsInv(w, Drained(sub.drain, r));
      OneMore(w.log, Drained(sub.drain, r), sub.drain, r);
      var drained := w.Log(Drained(sub.drain, r));
      PutKeepsInv(drained, r, done);
      PutKeepsInv(drained, r, done.(finished := true));
      if sub.state.publishDoneAtEnd {
        EventKeepsInv(drained.Put(r, done.(finished := true)), SwitchedAway(sub.drain, r));
      }
    }
  }

  lemma ActivateKeepsInv(w: World, r: RequestId, state: SubscriptionState, away: RequestId, publishDone: bool)
    requires Inv(w) && r in w.subs && !state.softSuspended
    ensures
      var w' := Activate(w, r, state, away, publishDone);
      && Inv(w') && w'.nextPlan == w.nextPlan + 1 && HasBegan(w'.log, w.nextPlan, r)
      && !HasCompleted(w'.log, w.nextPlan) && !HasSwitchedAway(w'.log, w.nextPlan)
      && (forall o :: o in w'.plans ==> w'.plans[o].id != w.nextPlan)
      && (forall o :: o in w'.subs ==> !Draining(w'.subs[o], w.nextPlan))
  {
    var sub := w.subs[r].(state := state, awaiting := None);
    var w0 := w.(nextPlan := w.nextPlan + 1);
    NewPlanIsUnused(w);
    PutKeepsInv(w0, r, sub);
    EventKeepsInv(w0.Put(r, sub), Began(w.nextPlan, r, away, publishDone));
    OneMore(w.log, Began(w.nextPlan, r, away, publishDone), w.nextPlan, r);
  }

  lemma BeginKeepsInv(
    w: World, r: RequestId, suspending: RequestId, mode: Mode, publishDone: bool,
    filter: Option<LocationFilter>, largest: Option<Location>)
    requires Inv(w) && r in w.subs
    ensures Inv(BeginSwitch(w, r, suspending, mode, publishDone, filter, largest))
  {
    var state := ActivatedState(w.subs[r].state, filter, largest);
    var boundary := if state.start.Some? then Some(state.start.value.group) else None;
    var plan := Plan(w.nextPlan, suspending, mode, publishDone, boundary);
    var w1 := Activate(w, r, state, suspending, publishDone);
    ActivateKeepsInv(w, r, state, suspending, publishDone);
    if boundary.Some? {
      SuspendKeepsInv(w1, plan, boundary.value);
      SetPlanKeepsInv(SuspendAt(w1, plan, boundary.value), r, plan);
    } else {
      SetPlanKeepsInv(w1, r, plan);
    }
  }

  lemma NewPlanIsUnused(w: World)
    requires Inv(w)
    ensures Inv(w.(nextPlan := w.nextPlan + 1))
    ensures !HasCompleted(w.log, w.nextPlan) && !HasSwitchedAway(w.log, w.nextPlan)
    ensures forall r :: r in w.subs ==> !Draining(w.subs[r], w.nextPlan)
    ensures forall r :: r in w.plans ==> w.plans[r].id != w.nextPlan
  {
    var w' := w.(nextPlan := w.nextPlan + 1);
    assert PlansHold(w') && DrainsHold(w') && LogIsOld(w');
  }

  lemma SetPlanKeepsInv(w: World, r: RequestId, plan: Plan)
    requires Inv(w) && r in w.subs && plan.id < w.nextPlan
    requires HasBegan(w.log, plan.id, r) && !HasCompleted(w.log, plan.id) && !HasSwitchedAway(w.log, plan.id)
    requires forall o :: o in w.plans ==> w.plans[o].id != plan.id
    requires Unspent(plan) ==> forall o :: o in w.subs ==> !Draining(w.subs[o], plan.id)
    ensures Inv(SetPlan(w, r, plan))
  {
    var w' := w.(plans := w.plans[r := plan]);
    assert PlansHold(w') && DrainsHold(w');
    PutKeepsInv(w', r, w.subs[r].(pendingSwitch := true));
  }

  lemma StepKeepsInv(w: World, step: Step)
    requires Inv(w) && Enabled(w, step)
    ensures Inv(Next(w, step))
  {
    match step
    case Subscribe(r, filter, forward) =>
      PutKeepsInv(w, r, Sub(FRESH.WithInitialFilter(filter).(forward := forward), 0, None, false, false));
    case Unsubscribe(r) =>
      assert DrainsHold(w.(subs := w.subs - {r}));
    case Update(r, filter, forward) => PutKeepsInv(w, r, Next(w, step).subs[r]);
    case ResolveLiveStart(r, largest) => PutKeepsInv(w, r, Next(w, step).subs[r]);
    case Begin(r, suspending, mode, publishDone, filter, largest) =>
      BeginKeepsInv(w, r, suspending, mode, publishDone, filter, largest);
    case Object(r, l, passes, written) =>
      DrainKeepsInv(w, r);
      DeliveredKeepsInv(w, r, l, false);
    case Datagram(r, l, passes, written) => DeliveredKeepsInv(w, r, l, true);
    case Dropped(r, l, passes, datagram, stage) =>
      DrainShortKeepsInv(w, r);
      DeliveredShortKeepsInv(w, r, l, datagram, stage);
    case Finish(r) => PutKeepsInv(w, r, w.subs[r].(finished := true));
  }

  lemma {:induction false} RunKeepsInv(worlds: seq<World>, steps: seq<Step>, n: nat)
    requires IsRun(worlds, steps) && n < |worlds|
    ensures Inv(worlds[n])
  {
    if n > 0 {
      RunKeepsInv(worlds, steps, n - 1);
      StepKeepsInv(worlds[n - 1], steps[n - 1]);
    }
  }

  /**
   In the log of every run: a hard switch cuts only after the subscription it activates
   has delivered since the switch began; a plan completes at most once; and a plan sends
   PUBLISH_DONE at most once, by its cut or at the end of its drain.
   */
  lemma SwitchesAreOrderly(worlds: seq<World>, steps: seq<Step>, n: nat)
    requires IsRun(worlds, steps) && n < |worlds|
    ensures
      var log := worlds[n].log;
      && (forall i :: 0 <= i < |log| && (log[i].Cut? || log[i].CutShort?) ==>
            DeliveredSince(log[..i], log[i].plan) && HasCompleted(log[..i], log[i].plan))
      && (forall i, j :: 0 <= i < j < |log| && log[i].Completed? && log[j].Completed? ==> log[i].plan != log[j].plan)
      && (forall i, j :: 0 <= i < j < |log| && log[i].SwitchedAway? && log[j].SwitchedAway? ==> log[i].plan != log[j].plan)
  {
    RunKeepsInv(worlds, steps, n);
  }

  /** Forward State falls to 0 only on request, at the end of a drain, or by a cut the log shows. */
  lemma ForwardFallsOnlySo(w: World, step: Step, r: RequestId)
    requires Enabled(w, step) && r in w.subs && r in Next(w, step).subs
    requires w.subs[r].state.forward && !Next(w, step).subs[r].state.forward
    ensures
      || (step.Update? && step.r == r && step.newForward == Some(false))
      || ((step.Object? || step.Dropped?) && step.r == r && w.subs[r].state.softSuspended && w.subs[r].state.IsPastEnd(step.l))
      || (exists p :: Cut(p, r) in Next(w, step).log[|w.log|..] || CutShort(p, r) in Next(w, step).log[|w.log|..])
  {
    match step
    case Object(o, l, passes, written) =>
      if w.subs[o].state.VerdictOn(l, passes) == Deliver && written {
        DeliveredForward(w, o, l, false, r);
      }
    case Datagram(o, l, passes, written) => DeliveredForward(w, o, l, true, r);
    case Dropped(o, l, passes, datagram, stage) => DeliveredShortForward(w, o, l, datagram, stage, r);
    case _ =>
  }

  lemma DeliveredShortForward(w: World, o: RequestId, l: Location, datagram: bool, stage: Stage, r: RequestId)
    requires o in w.subs && r in w.subs && w.subs[r].state.forward
    ensures
      var w' := DeliveredShort(w, o, l, datagram, stage);
      && r in w'.subs && |w.log| <= |w'.log|
      && (w'.subs[r].state.forward || exists p :: CutShort(p, r) in w'.log[|w.log|..])
  {
    var w' := DeliveredShort(w, o, l, datagram, stage);
    if w.subs[o].pendingSwitch && o in w.plans && stage.AfterCut? && w.plans[o].mode == Hard && w.plans[o].suspending in w.subs {
      assert w'.log[|w.log| + 2] == CutShort(w.plans[o].id, w.plans[o].suspending);
    }
  }

  lemma DeliveredForward(w: World, o: RequestId, l: Location, datagram: bool, r: RequestId)
    requires o in w.subs && r in w.subs && w.subs[r].state.forward
    ensures
      var w' := Delivered(w, o, l, datagram);
      && r in w'.subs && |w.log| <= |w'.log|
      && (w'.subs[r].state.forward || exists p :: Cut(p, r) in w'.log[|w.log|..])
  {
    var w' := Delivered(w, o, l, datagram);
    if w.subs[o].pendingSwitch && o in w.plans && w.plans[o].mode == Hard && w.plans[o].suspending in w.subs {
      assert w'.log[|w.log| + 2] == Cut(w.plans[o].id, w.plans[o].suspending);
    }
  }

  /** One more step at the end of a run. */
  lemma Extend(worlds: seq<World>, steps: seq<Step>, step: Step, w: World)
    returns (worlds': seq<World>, steps': seq<Step>)
    requires IsRun(worlds, steps) && Enabled(worlds[|steps|], step) && Next(worlds[|steps|], step) == w
    ensures IsRun(worlds', steps') && worlds'[|steps'|] == w && steps' == steps + [step] && worlds' == worlds + [w]
  {
    worlds', steps' := worlds + [w], steps + [step];
  }
}
