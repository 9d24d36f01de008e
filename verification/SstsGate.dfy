/**
 The sender-side switching gate: which track of a switching set carries a group.

 A controller records one decision per group; a subscription's gate resolves its answer
 from the set its track is in and that decision, in separate reads, and stamps it with
 the membership epoch it sampled first. Membership changes move the epoch; decisions do
 not. Each step below is one lock-protected section or one atomic access, and a run is
 any interleaving of them. A membership change and its epoch bump are one step: the bump
 happens under the lock the set is read through, and an epoch read in between is the
 one from before.
 */
module SstsGate {
  import opened Locations

  type Name = string
  type SetId = U64
  type RelayId = U64
  type RequestId = U64

  /** Groups of decisions kept behind the largest group seen. */
  const DECISION_WINDOW := 5

  /** `group` of a stamp that holds nothing. */
  const NOTHING_CACHED: U64 := U64_MAX

  datatype Member = Member(relay: RelayId, holders: set<RequestId>)

  /** Where a resolver stands in its loop. `seen` counts the notifications it has already missed. */
  datatype Progress =
    | Idle
    | Registered(group: U64, seen: nat)
    | Sampled(group: U64, seen: nat, epoch: nat)
    | HaveSet(group: U64, seen: nat, epoch: nat, setId: SetId)
    | Blocked(group: U64, seen: nat, setId: SetId)

  datatype Stamp = Stamp(epoch: nat, group: U64, forward: bool)

  datatype Gate = Gate(name: Name, relay: RelayId, stamp: Stamp, at: Progress)

  /**
   Where the controller stands: it takes one message or tick at a time, looks at the sets
   once, and records a decision for exactly those. It notifies for a group it finds
   decided, and after a recording, and at no other time.
   */
  datatype Controller =
    | Ready
    | Wanting(group: U64)
    | Deciding(group: U64, seen: set<SetId>)
    | Notifying

  /** `asked` are the groups resolvers have asked for and the controller has not got to. */
  datatype State = State(
    epoch: nat,
    trackToSet: map<Name, SetId>,
    sets: map<SetId, map<Name, Member>>,
    decisions: map<U64, map<SetId, Option<RelayId>>>,
    /** The largest group the controller has heard of. */
    largest: U64,
    /** The largest group the controller was asked for, which it decides again from time to time. */
    lastGroup: Option<U64>,
    asked: seq<U64>,
    controller: Controller,
    notified: nat,
    gates: seq<Gate>)

  // ---- Membership ----

  function Assigned(s: State, name: Name, relay: RelayId, request: RequestId, setId: SetId): State {
    if name in s.trackToSet && s.trackToSet[name] != setId then s
    else
      var members := if setId in s.sets then s.sets[setId] else map[];
      var holders := {request} + if name in members then members[name].holders else {};
      s.(epoch := s.epoch + 1,
         trackToSet := s.trackToSet[name := setId],
         sets := s.sets[setId := members[name := Member(relay, holders)]])
  }

  function Removed(s: State, name: Name): State {
    if name !in s.trackToSet then s
    else
      var setId := s.trackToSet[name];
      var left := s.(epoch := s.epoch + 1, trackToSet := s.trackToSet - {name});
      if setId !in s.sets then left
      else
        var members := s.sets[setId] - {name};
        left.(sets := if members == map[] then s.sets - {setId} else s.sets[setId := members])
  }

  function Released(s: State, name: Name, request: RequestId): State {
    if name !in s.trackToSet || s.trackToSet[name] !in s.sets || name !in s.sets[s.trackToSet[name]] then s
    else
      var setId := s.trackToSet[name];
      var member := s.sets[setId][name];
      if request !in member.holders then s
      else
        var fewer := s.(sets := s.sets[setId := s.sets[setId][name := member.(holders := member.holders - {request})]]);
        if member.holders == {request} then Removed(fewer, name) else fewer
  }

  function SetOf(s: State, name: Name): Option<SetId> {
    if name in s.trackToSet && s.trackToSet[name] in s.sets then Some(s.trackToSet[name]) else None
  }

  // ---- Decisions ----

  function OldestKept(largest: U64): U64 {
    if largest < DECISION_WINDOW then 0 else largest - DECISION_WINDOW
  }

  /** Recording is insert-if-absent, and prunes what has fallen behind. */
  function Recorded(s: State, group: U64, decision: map<SetId, Option<RelayId>>): State {
    if group in s.decisions then s.(controller := Ready)
    else
      var kept := map g | g in s.decisions && g >= OldestKept(s.largest) :: s.decisions[g];
      s.(decisions := kept[group := decision], controller := Notifying)
  }

  function Larger(a: U64, b: U64): U64 {
    if a > b then a else b
  }

  /** The controller takes the next group it was asked for. */
  function Received(s: State): State
    requires s.asked != []
  {
    var group := s.asked[0];
    s.(asked := s.asked[1..],
       lastGroup := Some(if s.lastGroup.Some? then Larger(group, s.lastGroup.value) else group),
       largest := Larger(group, s.largest),
       controller := if group in s.decisions then Notifying else Wanting(group))
  }

  /** What resolving from scratch, with nothing in between, answers. */
  function Fresh(s: State, gate: Gate, group: U64): Option<bool> {
    match SetOf(s, gate.name)
    case None => Some(true)
    case Some(setId) =>
      if group in s.decisions && setId in s.decisions[group]
      then Some(s.decisions[group][setId] == Some(gate.relay))
      else None
  }

  // ---- Steps ----

  datatype Step =
    | Assign(name: Name, relay: RelayId, request: RequestId, setId: SetId)
    | Remove(name: Name)
    | Release(name: Name, request: RequestId)
    /** An update of set properties bumps the epoch and moves no track. */
    | UpdateSet(name: Name)
    /** The controller's steps: a group asked for, a stream timeout, a tick, and what follows. */
    | Receive
    | Timeout(group: U64)
    | Tick
    | Snapshot
    | Record(decision: map<SetId, Option<RelayId>>)
    | Notify
    | Ask(i: nat, group: U64)
    | SampleEpoch(i: nat)
    | ReadSet(i: nat)
    | ReadDecision(i: nat)
    | Wake(i: nat)
    /** The event loop drops an Object it has waited for too long, and the resolver with it. */
    | GiveUp(i: nat)

  ghost predicate Enabled(s: State, step: Step) {
    match step
    case Assign(_, _, _, _) => true
    case Remove(_) => true
    case Release(_, _) => true
    case UpdateSet(_) => true
    case Receive => s.controller.Ready? && s.asked != []
    case Timeout(_) => s.controller.Ready?
    case Tick => s.controller.Ready? && s.lastGroup.Some?
    case Snapshot => s.controller.Wanting?
    case Record(decision) => s.controller.Deciding? && decision.Keys == s.controller.seen
    case Notify => s.controller.Notifying?
    case Ask(i, _) => i < |s.gates| && s.gates[i].at.Idle?
    case SampleEpoch(i) => i < |s.gates| && s.gates[i].at.Registered?
    case ReadSet(i) => i < |s.gates| && s.gates[i].at.Sampled?
    case ReadDecision(i) => i < |s.gates| && s.gates[i].at.HaveSet?
    case Wake(i) => i < |s.gates| && s.gates[i].at.Blocked? && s.gates[i].at.seen < s.notified
    case GiveUp(i) => i < |s.gates| && !s.gates[i].at.Idle?
  }

  function Put(s: State, i: nat, gate: Gate): State
    requires i < |s.gates|
  {
    s.(gates := s.gates[i := gate])
  }

  function Answered(gate: Gate, epoch: nat, group: U64, forward: bool): Gate {
    gate.(stamp := Stamp(epoch, group, forward), at := Idle)
  }

  ghost function Next(s: State, step: Step): State
    requires Enabled(s, step)
  {
    match step
    case Assign(name, relay, request, setId) => Assigned(s, name, relay, request, setId)
    case Remove(name) => Removed(s, name)
    case Release(name, request) => Released(s, name, request)
    case UpdateSet(name) => if name in s.trackToSet && s.trackToSet[name] in s.sets then s.(epoch := s.epoch + 1) else s
    case Receive => Received(s)
    case Timeout(group) =>
      s.(largest := Larger(group, s.largest),
         controller := if s.lastGroup.Some? then Wanting(s.lastGroup.value) else Ready)
    case Tick => s.(controller := Wanting(s.lastGroup.value))
    case Snapshot =>
      s.(controller := if s.sets == map[] then Ready else Deciding(s.controller.group, s.sets.Keys))
    case Record(decision) => Recorded(s, s.controller.group, decision)
    case Notify => s.(controller := Ready, notified := s.notified + 1)
    case Ask(i, group) =>
      var gate := s.gates[i];
      if gate.stamp.group == group && gate.stamp.epoch == s.epoch then s
      else Put(s, i, gate.(at := Registered(group, s.notified)))
    case SampleEpoch(i) =>
      var gate := s.gates[i];
      Put(s, i, gate.(at := Sampled(gate.at.group, gate.at.seen, s.epoch)))
    case ReadSet(i) =>
      var gate := s.gates[i];
      (match SetOf(s, gate.name)
       case None => Put(s, i, Answered(gate, gate.at.epoch, gate.at.group, true))
       case Some(setId) => Put(s, i, gate.(at := HaveSet(gate.at.group, gate.at.seen, gate.at.epoch, setId))))
    case ReadDecision(i) =>
      var gate := s.gates[i];
      var group, setId := gate.at.group, gate.at.setId;
      if group in s.decisions && setId in s.decisions[group]
      then Put(s, i, Answered(gate, gate.at.epoch, group, s.decisions[group][setId] == Some(gate.relay)))
      else Put(s, i, gate.(at := Blocked(group, gate.at.seen, setId))).(asked := s.asked + [group])
    case Wake(i) =>
      var gate := s.gates[i];
      Put(s, i, gate.(at := Registered(gate.at.group, s.notified)))
    case GiveUp(i) => Put(s, i, s.gates[i].(at := Idle))
  }

  ghost predicate Initial(s: State) {
    && s.epoch == 0 && s.trackToSet == map[] && s.sets == map[] && s.decisions == map[]
    && s.largest == 0 && s.lastGroup == None && s.asked == [] && s.controller == Ready && s.notified == 0
    && forall i :: 0 <= i < |s.gates| ==> s.gates[i].stamp == Stamp(0, NOTHING_CACHED, false) && s.gates[i].at == Idle
  }

  ghost predicate IsPath(states: seq<State>, steps: seq<Step>) {
    && |states| == |steps| + 1
    && forall k :: 0 <= k < |steps| ==> Enabled(states[k], steps[k]) && states[k + 1] == Next(states[k], steps[k])
  }

  ghost predicate IsRun(states: seq<State>, steps: seq<Step>) {
    IsPath(states, steps) && Initial(states[0])
  }

  // ---- What every step keeps ----

  /** A stamp that a lookup for its group would trust now. */
  ghost predicate Current(s: State, gate: Gate) {
    gate.stamp.epoch == s.epoch && gate.stamp.group < NOTHING_CACHED
  }

  ghost predicate Agrees(s: State, gate: Gate) {
    Current(s, gate) ==> Fresh(s, gate, gate.stamp.group) == Some(gate.stamp.forward)
  }

  /** What a resolver has read so far is still so, if the epoch it sampled is. */
  ghost predicate ReadsHold(s: State, gate: Gate) {
    match gate.at
    case Idle => true
    case Registered(_, seen) => seen <= s.notified
    case Sampled(_, seen, epoch) => seen <= s.notified && epoch <= s.epoch
    case HaveSet(_, seen, epoch, setId) =>
      seen <= s.notified && epoch <= s.epoch && (epoch == s.epoch ==> SetOf(s, gate.name) == Some(setId))
    case Blocked(group, seen, setId) =>
      && seen <= s.notified
      && (group in s.decisions && setId in s.decisions[group] ==> s.controller.Notifying? || seen < s.notified)
  }

  ghost predicate GateHolds(s: State, gate: Gate) {
    && ReadsHold(s, gate)
    && gate.stamp.epoch <= s.epoch
    && (gate.stamp.group >= OldestKept(s.largest) ==> Agrees(s, gate))
  }

  ghost predicate Inv(s: State) {
    forall i :: 0 <= i < |s.gates| ==> GateHolds(s, s.gates[i])
  }

  /** The epoch moves whenever a track's set does, and never back. */
  lemma MembershipMovesTheEpoch(s: State, step: Step, name: Name)
    requires Enabled(s, step)
    ensures s.epoch <= Next(s, step).epoch
    ensures SetOf(Next(s, step), name) != SetOf(s, name) ==> s.epoch < Next(s, step).epoch
  {
    match step
    case Release(other, request) =>
      if other in s.trackToSet && s.trackToSet[other] in s.sets && other in s.sets[s.trackToSet[other]] {
        var setId := s.trackToSet[other];
        var member := s.sets[setId][other];
        var fewer := s.(sets := s.sets[setId := s.sets[setId][other := member.(holders := member.holders - {request})]]);
        assert SetOf(fewer, name) == SetOf(s, name);
      }
    case _ =>
  }

  /** What a step of the environment may do, seen from a gate. */
  ghost predicate Surroundings(s: State, s': State, name: Name) {
    && s.epoch <= s'.epoch && (SetOf(s', name) != SetOf(s, name) ==> s.epoch < s'.epoch)
    && s.largest <= s'.largest && s.notified <= s'.notified
    && (s.controller.Notifying? ==> s'.controller.Notifying? || s.notified < s'.notified)
    && (forall g :: g in s.decisions && g >= OldestKept(s'.largest) ==> g in s'.decisions && s'.decisions[g] == s.decisions[g])
    && (forall g :: g in s'.decisions ==> s'.controller.Notifying? || (g in s.decisions && s'.decisions[g] == s.decisions[g]))
  }

  lemma SurroundingsKeepGate(s: State, s': State, gate: Gate)
    requires GateHolds(s, gate) && Surroundings(s, s', gate.name)
    ensures GateHolds(s', gate)
  {
  }

  ghost predicate IsGateStep(step: Step) {
    step.Ask? || step.SampleEpoch? || step.ReadSet? || step.ReadDecision? || step.Wake? || step.GiveUp?
  }

  lemma EnvironmentStep(s: State, step: Step, name: Name)
    requires Enabled(s, step) && !IsGateStep(step)
    ensures Next(s, step).gates == s.gates && Surroundings(s, Next(s, step), name)
  {
    MembershipMovesTheEpoch(s, step, name);
  }

  lemma GateStepFrame(s: State, step: Step)
    requires Enabled(s, step) && IsGateStep(step)
    ensures |Next(s, step).gates| == |s.gates|
    ensures Next(s, step) == Put(s, step.i, Next(s, step).gates[step.i]).(asked := Next(s, step).asked)
  {
  }

  lemma GateStep(s: State, step: Step)
    requires Enabled(s, step) && IsGateStep(step) && GateHolds(s, s.gates[step.i])
    ensures |Next(s, step).gates| == |s.gates|
    ensures GateHolds(Next(s, step), Next(s, step).gates[step.i])
  {
    var gate := s.gates[step.i];
    match step
    case ReadDecision(i) =>
      assert ReadsHold(s, gate);
    case _ =>
  }

  lemma StepKeepsInv(s: State, step: Step)
    requires Inv(s) && Enabled(s, step)
    ensures Inv(Next(s, step))
  {
    var s' := Next(s, step);
    if IsGateStep(step) {
      GateStepFrame(s, step);
      GateStep(s, step);
    }
    forall i | 0 <= i < |s'.gates| ensures GateHolds(s', s'.gates[i]) {
      if !IsGateStep(step) {
        EnvironmentStep(s, step, s.gates[i].name);
        SurroundingsKeepGate(s, s', s.gates[i]);
      } else if i != step.i {
        SurroundingsKeepGate(s, s', s.gates[i]);
      }
    }
  }

  lemma {:induction false} RunKeepsInv(states: seq<State>, steps: seq<Step>, n: nat)
    requires IsRun(states, steps) && n < |states|
    ensures Inv(states[n])
  {
    if n > 0 {
      RunKeepsInv(states, steps, n - 1);
      StepKeepsInv(states[n - 1], steps[n - 1]);
    }
  }

  // ---- The gate cache ----

  /**
   In every run, a stamp the gate would trust for a group still within the decision
   window holds the answer a fresh resolution gives.
   */
  lemma CurrentStampsAgree(states: seq<State>, steps: seq<Step>, n: nat, i: nat)
    requires IsRun(states, steps) && n < |states| && i < |states[n].gates|
    ensures
      var s, gate := states[n], states[n].gates[i];
      Current(s, gate) && gate.stamp.group >= OldestKept(s.largest) ==>
        Fresh(s, gate, gate.stamp.group) == Some(gate.stamp.forward)
  {
    RunKeepsInv(states, steps, n);
    assert GateHolds(states[n], states[n].gates[i]);
  }

  /** While their stamps are current, two different tracks of a set never both forward such a group. */
  lemma OneTrackForwards(states: seq<State>, steps: seq<Step>, n: nat, i: nat, j: nat)
    requires IsRun(states, steps) && n < |states| && i < |states[n].gates| && j < |states[n].gates|
    requires
      var s, a, b := states[n], states[n].gates[i], states[n].gates[j];
      && Current(s, a) && Current(s, b) && a.stamp.group == b.stamp.group >= OldestKept(s.largest)
      && a.relay != b.relay && SetOf(s, a.name).Some? && SetOf(s, a.name) == SetOf(s, b.name)
    ensures !(states[n].gates[i].stamp.forward && states[n].gates[j].stamp.forward)
  {
    CurrentStampsAgree(states, steps, n, i);
    CurrentStampsAgree(states, steps, n, j);
  }

  ghost predicate AllAgree(s: State) {
    forall i :: 0 <= i < |s.gates| ==> Agrees(s, s.gates[i])
  }

  /** The step does not prune a group that a current stamp of a set member answers for. */
  ghost predicate SparesStamps(s: State, step: Step) {
    step.Record? && s.controller.Deciding? && s.controller.group !in s.decisions ==>
      forall i :: 0 <= i < |s.gates| && Current(s, s.gates[i]) && SetOf(s, s.gates[i].name).Some? ==>
        s.gates[i].stamp.group >= OldestKept(s.largest)
  }

  lemma GateStepAgrees(s: State, step: Step)
    requires Enabled(s, step) && IsGateStep(step)
    requires GateHolds(s, s.gates[step.i]) && Agrees(s, s.gates[step.i])
    ensures Agrees(Next(s, step), Next(s, step).gates[step.i])
  {
  }

  lemma RecordSparesStamp(s: State, step: Step, gate: Gate)
    requires Enabled(s, step) && step.Record? && Agrees(s, gate)
    requires s.controller.group !in s.decisions && Current(s, gate) && SetOf(s, gate.name).Some? ==>
               gate.stamp.group >= OldestKept(s.largest)
    ensures Agrees(Next(s, step), gate)
  {
  }

  lemma OtherStepsSpareStamp(s: State, step: Step, gate: Gate)
    requires Enabled(s, step) && !IsGateStep(step) && !step.Record? && Agrees(s, gate) && gate.stamp.epoch <= s.epoch
    ensures Agrees(Next(s, step), gate)
  {
    MembershipMovesTheEpoch(s, step, gate.name);
    assert Next(s, step).decisions == s.decisions;
  }

  lemma SparedStampAgrees(s: State, step: Step, i: nat)
    requires Inv(s) && AllAgree(s) && Enabled(s, step) && SparesStamps(s, step) && i < |s.gates|
    ensures |Next(s, step).gates| == |s.gates| && Agrees(Next(s, step), Next(s, step).gates[i])
  {
    var gate := s.gates[i];
    assert Agrees(s, gate) && GateHolds(s, gate);
    if IsGateStep(step) {
      assert GateHolds(s, s.gates[step.i]) && Agrees(s, s.gates[step.i]);
      GateStepFrame(s, step);
      GateStepAgrees(s, step);
    } else if step.Record? {
      RecordSparesStamp(s, step, gate);
    } else {
      OtherStepsSpareStamp(s, step, gate);
      EnvironmentStep(s, step, gate.name);
    }
  }

  lemma PrunedStampDisagrees(s: State, step: Step, i: nat)
    requires AllAgree(s) && Enabled(s, step) && step.Record? && s.controller.group !in s.decisions
    requires i < |s.gates| && Current(s, s.gates[i]) && SetOf(s, s.gates[i].name).Some?
    requires s.gates[i].stamp.group < OldestKept(s.largest)
    ensures !Agrees(Next(s, step), Next(s, step).gates[i])
  {
    assert Agrees(s, s.gates[i]);
  }

  /**
   Recording a decision moves no epoch, yet it prunes. For groups that have fallen
   behind, a step keeps every current stamp right exactly when it prunes none of them.
   */
  lemma AgreementSurvivesExactly(s: State, step: Step)
    requires Inv(s) && AllAgree(s) && Enabled(s, step)
    ensures AllAgree(Next(s, step)) <==> SparesStamps(s, step)
  {
    if SparesStamps(s, step) {
      forall i | 0 <= i < |Next(s, step).gates| ensures Agrees(Next(s, step), Next(s, step).gates[i]) {
        SparedStampAgrees(s, step, i);
      }
    } else {
      var i :| 0 <= i < |s.gates| && Current(s, s.gates[i]) && SetOf(s, s.gates[i].name).Some?
            && s.gates[i].stamp.group < OldestKept(s.largest);
      PrunedStampDisagrees(s, step, i);
    }
  }

  /** So the stamps of a whole run stay right as long as each of its steps spares them. */
  lemma {:induction false} SparingRunsAgree(states: seq<State>, steps: seq<Step>, n: nat)
    requires IsRun(states, steps) && n < |states|
    requires forall k :: 0 <= k < n ==> SparesStamps(states[k], steps[k])
    ensures AllAgree(states[n])
  {
    if n > 0 {
      SparingRunsAgree(states, steps, n - 1);
      RunKeepsInv(states, steps, n - 1);
      AgreementSurvivesExactly(states[n - 1], steps[n - 1]);
    }
  }

  /** One more step at the end of a run. */
  lemma Extend(states: seq<State>, steps: seq<Step>, step: Step, s: State)
    returns (states': seq<State>, steps': seq<Step>)
    requires IsRun(states, steps) && Enabled(states[|steps|], step) && Next(states[|steps|], step) == s
    ensures IsRun(states', steps') && states'[|steps'|] == s && states' == states + [s] && steps' == steps + [step]
  {
    states', steps' := states + [s], steps + [step];
  }

  /** A gate that has registered reads the epoch and its set. */
  lemma ReadOn(states: seq<State>, steps: seq<Step>, i: nat, group: U64, setId: SetId)
    returns (states': seq<State>, steps': seq<Step>)
    requires IsRun(states, steps) && i < |states[|steps|].gates|
    requires
      var s := states[|steps|];
      s.gates[i].at == Registered(group, s.notified) && SetOf(s, s.gates[i].name) == Some(setId)
    ensures IsRun(states', steps')
    ensures
      var s := states[|steps|];
      states'[|steps'|] == Put(s, i, s.gates[i].(at := HaveSet(group, s.notified, s.epoch, setId)))
  {
    var s := states[|steps|];
    var gate := s.gates[i];
    states', steps' := Extend(states, steps, SampleEpoch(i), Put(s, i, gate.(at := Sampled(group, s.notified, s.epoch))));
    states', steps' := Extend(states', steps', ReadSet(i), Put(s, i, gate.(at := HaveSet(group, s.notified, s.epoch, setId))));
  }

  /** A gate that asks for a group its set has no decision for, and waits. */
  lemma AskAndWait(states: seq<State>, steps: seq<Step>, i: nat, group: U64, setId: SetId)
    returns (states': seq<State>, steps': seq<Step>)
    requires IsRun(states, steps) && Enabled(states[|steps|], Ask(i, group))
    requires
      var s := states[|steps|];
      && s.gates[i].stamp.group != group && SetOf(s, s.gates[i].name) == Some(setId)
      && (group in s.decisions ==> setId !in s.decisions[group])
    ensures IsRun(states', steps')
    ensures
      var s := states[|steps|];
      states'[|steps'|] == Put(s, i, s.gates[i].(at := Blocked(group, s.notified, setId))).(asked := s.asked + [group])
  {
    var s := states[|steps|];
    var gate := s.gates[i];
    states', steps' := Extend(states, steps, Ask(i, group), Put(s, i, gate.(at := Registered(group, s.notified))));
    states', steps' := ReadOn(states', steps', i, group, setId);
    states', steps' := Extend(states', steps', ReadDecision(i),
      Put(s, i, gate.(at := Blocked(group, s.notified, setId))).(asked := s.asked + [group]));
  }

  /** What the controller makes of the one group it was asked for. */
  ghost function Decided(s: State, group: U64, decision: map<SetId, Option<RelayId>>): State {
    var largest := Larger(group, s.largest);
    var kept := map g | g in s.decisions && g >= OldestKept(largest) :: s.decisions[g];
    s.(asked := [],
       lastGroup := Some(if s.lastGroup.Some? then Larger(group, s.lastGroup.value) else group),
       largest := largest, decisions := kept[group := decision], controller := Ready, notified := s.notified + 1)
  }

  lemma Decide(states: seq<State>, steps: seq<Step>, group: U64, decision: map<SetId, Option<RelayId>>)
    returns (states': seq<State>, steps': seq<Step>)
    requires IsRun(states, steps)
    requires
      var s := states[|steps|];
      && s.controller.Ready? && s.asked == [group] && group !in s.decisions
      && s.sets != map[] && s.sets.Keys == decision.Keys
    ensures IsRun(states', steps') && states'[|steps'|] == Decided(states[|steps|], group, decision)
  {
    var s := states[|steps|];
    var s1 := Received(s);
    var s2 := s1.(controller := Deciding(group, s.sets.Keys));
    var s3 := Recorded(s2, group, decision);
    states', steps' := Extend(states, steps, Receive, s1);
    states', steps' := Extend(states', steps', Snapshot, s2);
    states', steps' := Extend(states', steps', Record(decision), s3);
    states', steps' := Extend(states', steps', Notify, Decided(s, group, decision));
  }

  /** A waiting gate that wakes and is answered. */
  lemma WakeAndAnswer(states: seq<State>, steps: seq<Step>, i: nat, group: U64, setId: SetId, chosen: Option<RelayId>)
    returns (states': seq<State>, steps': seq<Step>)
    requires IsRun(states, steps) && Enabled(states[|steps|], Wake(i))
    requires
      var s := states[|steps|];
      && s.gates[i].at.group == group && SetOf(s, s.gates[i].name) == Some(setId)
      && group in s.decisions && setId in s.decisions[group] && s.decisions[group][setId] == chosen
    ensures IsRun(states', steps')
    ensures
      var s := states[|steps|];
      states'[|steps'|] == Put(s, i, Answered(s.gates[i], s.epoch, group, chosen == Some(s.gates[i].relay)))
  {
    var s := states[|steps|];
    var gate := s.gates[i];
    states', steps' := Extend(states, steps, Wake(i), Put(s, i, gate.(at := Registered(group, s.notified))));
    states', steps' := ReadOn(states', steps', i, group, setId);
    states', steps' := Extend(states', steps', ReadDecision(i),
      Put(s, i, Answered(gate, s.epoch, group, chosen == Some(gate.relay))));
  }

  /** A gate asks, the controller decides for a track, and the gate is answered. */
  lemma AskAndResolve(states: seq<State>, steps: seq<Step>, i: nat, group: U64, chosen: RelayId)
    returns (states': seq<State>, steps': seq<Step>)
    requires IsRun(states, steps) && Enabled(states[|steps|], Ask(i, group))
    requires
      var s := states[|steps|];
      && s.gates[i].stamp.group != group && SetOf(s, s.gates[i].name) == Some(7) && group !in s.decisions
      && s.controller.Ready? && s.asked == [] && s.sets.Keys == {7}
    ensures IsRun(states', steps')
    ensures
      var s := states[|steps|];
      states'[|steps'|] == Put(Decided(s, group, map[7 := Some(chosen)]), i,
        Answered(s.gates[i], s.epoch, group, chosen == s.gates[i].relay))
  {
    states', steps' := AskAndWait(states, steps, i, group, 7);
    states', steps' := Decide(states', steps', group, map[7 := Some(chosen)]);
    states', steps' := WakeAndAnswer(states', steps', i, group, 7, Some(chosen));
  }

  const NOTHING := Stamp(0, NOTHING_CACHED, false)

  /** Two tracks of set 7 and nothing decided. */
  lemma TwoTracks() returns (states: seq<State>, steps: seq<Step>)
    ensures IsRun(states, steps)
    ensures
      var s := states[|steps|];
      && s.gates == [Gate("low", 1, NOTHING, Idle), Gate("high", 2, NOTHING, Idle)] && s.epoch == 2
      && SetOf(s, "low") == SetOf(s, "high") == Some(7) && s.sets.Keys == {7}
      && s.decisions == map[] && s.asked == [] && s.controller == Ready && s.largest == 0
  {
    var s0 := State(0, map[], map[], map[], 0, None, [], Ready, 0, [Gate("low", 1, NOTHING, Idle), Gate("high", 2, NOTHING, Idle)]);
    var s1 := Assigned(s0, "low", 1, 0, 7);
    var s2 := Assigned(s1, "high", 2, 2, 7);
    states, steps := Extend([s0], [], Assign("low", 1, 0, 7), s1);
    states, steps := Extend(states, steps, Assign("high", 2, 2, 7), s2);
  }

  /**
   A run that leaves the window: group 10 is decided for track 1, falls out of the
   window when group 20 is decided, is asked for again by track 2 and decided for it.
   Both tracks of the set end up forwarding it under stamps that are current.
   */
  lemma PrunedGroupForwardsTwice() returns (states: seq<State>, steps: seq<Step>)
    ensures IsRun(states, steps)
    ensures
      var s := states[|steps|];
      && |s.gates| == 2 && s.gates[0].relay != s.gates[1].relay
      && SetOf(s, s.gates[0].name) == SetOf(s, s.gates[1].name) == Some(7)
      && Current(s, s.gates[0]) && Current(s, s.gates[1])
      && s.gates[0].stamp.group == s.gates[1].stamp.group == 10
      && s.gates[0].stamp.forward && s.gates[1].stamp.forward
  {
    states, steps := TwoTracks();
    states, steps := AskAndResolve(states, steps, 0, 10, 1);
    states, steps := AskAndResolve(states, steps, 1, 20, 1);
    states, steps := AskAndResolve(states, steps, 1, 10, 2);
  }
}
