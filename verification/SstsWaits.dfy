/**
 Waiting at the switching gate: when a resolver that waits for a decision goes on, and the
 two ways for an Object to wait in vain until the event loop gives it up.
 */
module SstsWaits {
  import opened Locations
  import opened SstsGate

  /** A resolver whose decision has been recorded and notified is never left waiting. */
  lemma NoLostWakeup(states: seq<State>, steps: seq<Step>, n: nat, i: nat)
    requires IsRun(states, steps) && n < |states| && i < |states[n].gates| && !states[n].controller.Notifying?
    requires
      var at := states[n].gates[i].at;
      at.Blocked? && at.group in states[n].decisions && at.setId in states[n].decisions[at.group]
    ensures Enabled(states[n], Wake(i))
  {
    RunKeepsInv(states, steps, n);
    assert GateHolds(states[n], states[n].gates[i]);
  }

  /** Left to itself, a woken resolver answers exactly what a fresh resolution does, if that answers. */
  lemma WokenResolverAnswers(s: State, i: nat)
    requires Enabled(s, Wake(i)) && Fresh(s, s.gates[i], s.gates[i].at.group).Some?
    ensures
      var group := s.gates[i].at.group;
      var s1 := Next(s, Wake(i));
      && Enabled(s1, SampleEpoch(i))
      && var s2 := Next(s1, SampleEpoch(i));
      && Enabled(s2, ReadSet(i))
      && var s3 := Next(s2, ReadSet(i));
      && var s4 := if s3.gates[i].at.HaveSet? then Next(s3, ReadDecision(i)) else s3;
      && s4.gates[i].at.Idle?
      && s4.gates[i].stamp == Stamp(s.epoch, group, Fresh(s, s.gates[i], group).value)
  {
  }

  /**
   In every run, with no notification on its way: a resolver that waits although a fresh
   resolution would answer, and cannot wake, waits for a set its track is no longer in.
   */
  lemma WaitsOnlyForASetItLeft(states: seq<State>, steps: seq<Step>, n: nat, i: nat)
    requires IsRun(states, steps) && n < |states| && i < |states[n].gates| && !states[n].controller.Notifying?
    requires
      var s, gate := states[n], states[n].gates[i];
      gate.at.Blocked? && Fresh(s, gate, gate.at.group).Some? && !Enabled(s, Wake(i))
    ensures SetOf(states[n], states[n].gates[i].name) != Some(states[n].gates[i].at.setId)
  {
    RunKeepsInv(states, steps, n);
    assert GateHolds(states[n], states[n].gates[i]);
  }

  ghost predicate NotifiesBetween(steps: seq<Step>, from: nat, to: nat)
    requires to <= |steps|
  {
    exists k :: from <= k < to && steps[k].Notify?
  }

  /** The step has gate `i` register anew. */
  ghost predicate Registers(step: Step, i: nat) {
    (step.Ask? || step.Wake?) && step.i == i
  }

  ghost function SeenBy(at: Progress): Option<nat> {
    if at.Idle? then None else Some(at.seen)
  }

  lemma SeenStays(s: State, step: Step, i: nat)
    requires Enabled(s, step) && i < |s.gates| && !Registers(step, i)
    ensures i < |Next(s, step).gates|
    ensures SeenBy(Next(s, step).gates[i].at).Some? ==> SeenBy(Next(s, step).gates[i].at) == SeenBy(s.gates[i].at)
    ensures Next(s, step).notified == s.notified + if step.Notify? then 1 else 0
  {
    if !IsGateStep(step) {
      EnvironmentStep(s, step, s.gates[i].name);
    } else {
      GateStepFrame(s, step);
    }
  }

  /**
   In every run, a resolver that registered at step `b` and still waits at `n` can go on
   exactly if a notification came in between: no removal, release or assignment lets it.
   */
  lemma {:induction false} GoesOnExactly(states: seq<State>, steps: seq<Step>, b: nat, n: nat, i: nat)
    requires IsPath(states, steps) && b < n < |states| && i < |states[b].gates|
    requires Registers(steps[b], i) && forall k :: b < k < n ==> !Registers(steps[k], i)
    ensures i < |states[n].gates|
    ensures states[n].notified >= states[b].notified
    ensures states[n].notified > states[b].notified <==> NotifiesBetween(steps, b, n)
    ensures SeenBy(states[n].gates[i].at).Some? ==> SeenBy(states[n].gates[i].at) == Some(states[b].notified)
    ensures states[n].gates[i].at.Blocked? ==> (Enabled(states[n], Wake(i)) <==> NotifiesBetween(steps, b, n))
    decreases n
  {
    if n == b + 1 {
      GateStepFrame(states[b], steps[b]);
    } else {
      GoesOnExactly(states, steps, b, n - 1, i);
      SeenStays(states[n - 1], steps[n - 1], i);
      assert NotifiesBetween(steps, b, n) <==> NotifiesBetween(steps, b, n - 1) || steps[n - 1].Notify?;
    }
  }

  // ---- A set torn down while a resolver waits for its decision ----

  /** The resolver waits, and no notification has come since it registered. */
  ghost predicate Waits(s: State, i: nat) {
    i < |s.gates| && s.gates[i].at.Blocked? && s.gates[i].at.seen == s.notified
  }

  /** The set has no decision for the group. */
  ghost predicate Undecided(s: State, group: U64, setId: SetId) {
    group in s.decisions ==> setId !in s.decisions[group]
  }

  /** The resolver is about to ask, and its asking will be answered: the group is decided or there is a set to decide for. */
  ghost predicate WillAsk(s: State, gate: Gate) {
    && gate.at.HaveSet? && Undecided(s, gate.at.group, gate.at.setId)
    && (gate.at.group in s.decisions || s.sets != map[])
  }

  /** The track is in a set and can come to ask for something. */
  ghost predicate CouldAsk(s: State, gate: Gate) {
    exists setId, group: U64 :: SetOf(s, gate.name) == Some(setId) && Undecided(s, group, setId)
  }

  /** A group asked for that is decided, or that there is a set to decide for. */
  ghost predicate WillServe(s: State, group: U64) {
    group in s.decisions || s.sets != map[]
  }

  /**
   A notification is on its way, or can follow without a new assignment: from what the
   controller has in hand, from what it was asked or will be, or from the group it decides
   again from time to time.
   */
  ghost predicate MayStillNotify(s: State, i: nat) {
    || s.controller.Notifying?
    || (s.controller.Deciding? && s.controller.group !in s.decisions)
    || (s.controller.Wanting? && s.controller.group !in s.decisions && s.sets != map[])
    || (s.lastGroup.Some? && s.lastGroup.value !in s.decisions && s.sets != map[])
    || (exists k :: 0 <= k < |s.asked| && WillServe(s, s.asked[k]))
    || (exists j :: 0 <= j < |s.gates| && WillAsk(s, s.gates[j]))
    || (exists j :: 0 <= j < |s.gates| && j != i && CouldAsk(s, s.gates[j]))
  }

  ghost predicate NoAssign(steps: seq<Step>) {
    forall k :: 0 <= k < |steps| ==> !steps[k].Assign?
  }

  ghost predicate NeverGivesUp(steps: seq<Step>, i: nat) {
    forall k :: 0 <= k < |steps| ==> steps[k] != GiveUp(i)
  }

  /**
   Whatever happens short of a new assignment, the wait ends only by giving up: until then
   the resolver stays where it is, so the Object it waits for is never answered.
   */
  ghost predicate Unanswered(s: State, i: nat)
    requires i < |s.gates|
  {
    forall states, steps :: IsPath(states, steps) && states[0] == s && NoAssign(steps) && NeverGivesUp(steps, i) ==>
      StillWaits(s, states[|steps|], i)
  }

  ghost predicate StillWaits(s: State, later: State, i: nat)
    requires i < |s.gates|
  {
    i < |later.gates| && later.gates[i] == s.gates[i] && !Enabled(later, Wake(i))
  }

  ghost predicate Stuck(s: State, i: nat) {
    Waits(s, i) && !MayStillNotify(s, i)
  }

  /** No set comes into being, and no track into one. */
  ghost predicate FewerSets(s: State, s': State) {
    && s'.decisions == s.decisions
    && (s'.sets != map[] ==> s.sets != map[])
    && forall name :: SetOf(s', name).Some? ==> SetOf(s', name) == SetOf(s, name)
  }

  lemma SetsGoFewer(s: State, step: Step, i: nat)
    requires Stuck(s, i) && Enabled(s, step) && !step.Assign?
    ensures FewerSets(s, Next(s, step))
  {
    if step.Release? {
      var name := step.name;
      if name in s.trackToSet && s.trackToSet[name] in s.sets && name in s.sets[s.trackToSet[name]] {
        var setId, member := s.trackToSet[name], s.sets[s.trackToSet[name]][name];
        var fewer := s.(sets := s.sets[setId := s.sets[setId][name := member.(holders := member.holders - {step.request})]]);
        assert forall other :: SetOf(fewer, other) == SetOf(s, other);
      }
    }
  }

  lemma FewerAsk(s: State, s': State, gate: Gate)
    requires FewerSets(s, s')
    ensures WillAsk(s', gate) ==> WillAsk(s, gate)
    ensures CouldAsk(s', gate) ==> CouldAsk(s, gate)
  {
    if CouldAsk(s', gate) {
      var setId, group: U64 :| SetOf(s', gate.name) == Some(setId) && Undecided(s', group, setId);
      assert SetOf(s, gate.name) == Some(setId) && Undecided(s, group, setId);
    }
  }

  /** Steps of the controller and of the sets. */
  lemma StuckOutside(s: State, step: Step, i: nat)
    requires Stuck(s, i) && Enabled(s, step) && !step.Assign? && !IsGateStep(step)
    ensures Stuck(Next(s, step), i) && Next(s, step).gates == s.gates
  {
    var s' := Next(s, step);
    SetsGoFewer(s, step, i);
    EnvironmentStep(s, step, s.gates[i].name);
    forall j | 0 <= j < |s.gates| ensures !WillAsk(s', s.gates[j]) && (j != i ==> !CouldAsk(s', s.gates[j])) {
      FewerAsk(s, s', s.gates[j]);
    }
    forall k | 0 <= k < |s'.asked| ensures !WillServe(s', s'.asked[k]) {
      assert s'.asked[k] == s.asked[if step.Receive? then k + 1 else k];
    }
    assert step.Receive? ==> !WillServe(s, s.asked[0]);
  }

  lemma StuckInside(s: State, step: Step, i: nat)
    requires Stuck(s, i) && Enabled(s, step) && IsGateStep(step) && step != GiveUp(i)
    ensures Stuck(Next(s, step), i) && Next(s, step).gates[i] == s.gates[i]
  {
    GateStepFrame(s, step);
    var s' := Next(s, step);
    assert s'.decisions == s.decisions && s'.sets == s.sets && s'.trackToSet == s.trackToSet;
    forall j | 0 <= j < |s'.gates| ensures !WillAsk(s', s'.gates[j]) && (j != i ==> !CouldAsk(s', s'.gates[j])) {
      GateAsksNoMore(s, step, i, j);
    }
    forall k | 0 <= k < |s'.asked| ensures !WillServe(s', s'.asked[k]) {
      if k == |s.asked| {
        assert !WillAsk(s, s.gates[step.i]);
      } else {
        assert !WillServe(s, s.asked[k]);
      }
    }
  }

  lemma GateAsksNoMore(s: State, step: Step, i: nat, j: nat)
    requires Stuck(s, i) && Enabled(s, step) && IsGateStep(step) && step != GiveUp(i) && j < |s.gates|
    ensures j < |Next(s, step).gates| && !WillAsk(Next(s, step), Next(s, step).gates[j])
    ensures j != i ==> !CouldAsk(Next(s, step), Next(s, step).gates[j])
  {
    GateStepFrame(s, step);
    var s' := Next(s, step);
    assert !WillAsk(s, s.gates[j]) && (j != i ==> !CouldAsk(s, s.gates[j]));
    assert s'.gates[j].name == s.gates[j].name;
    if j != i && CouldAsk(s', s'.gates[j]) {
      var setId, group: U64 :| SetOf(s', s.gates[j].name) == Some(setId) && Undecided(s', group, setId);
      assert SetOf(s, s.gates[j].name) == Some(setId) && Undecided(s, group, setId);
    }
  }

  lemma {:induction false} StaysStuck(states: seq<State>, steps: seq<Step>, n: nat, i: nat)
    requires IsPath(states, steps) && n < |states| && NoAssign(steps) && NeverGivesUp(steps, i) && Stuck(states[0], i)
    ensures Stuck(states[n], i) && states[n].gates[i] == states[0].gates[i]
  {
    if n > 0 {
      StaysStuck(states, steps, n - 1, i);
      if IsGateStep(steps[n - 1]) {
        StuckInside(states[n - 1], steps[n - 1], i);
      } else {
        StuckOutside(states[n - 1], steps[n - 1], i);
      }
    }
  }

  /** A path without assignments to where the resolver can go on. */
  ghost predicate Leads(s: State, i: nat, states: seq<State>, steps: seq<Step>) {
    && IsPath(states, steps) && states[0] == s && NoAssign(steps) && NeverGivesUp(steps, i)
    && Enabled(states[|steps|], Wake(i))
  }

  lemma LeadsFrom(s: State, i: nat, step: Step, states: seq<State>, steps: seq<Step>)
    returns (states': seq<State>, steps': seq<Step>)
    requires Enabled(s, step) && !step.Assign? && step != GiveUp(i) && Leads(Next(s, step), i, states, steps)
    ensures Leads(s, i, states', steps')
  {
    states', steps' := [s] + states, [step] + steps;
    assert states'[|steps'|] == states[|steps|];
    forall k | 0 <= k < |steps'|
      ensures !steps'[k].Assign? && steps'[k] != GiveUp(i) && Enabled(states'[k], steps'[k]) && states'[k + 1] == Next(states'[k], steps'[k])
    {
      if k > 0 {
        assert steps'[k] == steps[k - 1] && states'[k] == states[k - 1] && states'[k + 1] == states[k];
      }
    }
  }

  lemma NotifyLeads(s: State, i: nat) returns (states: seq<State>, steps: seq<Step>)
    requires Waits(s, i) && s.controller.Notifying?
    ensures Leads(s, i, states, steps)
  {
    states, steps := LeadsFrom(s, i, Notify, [Next(s, Notify)], []);
  }

  lemma RecordLeads(s: State, i: nat) returns (states: seq<State>, steps: seq<Step>)
    requires Waits(s, i) && s.controller.Deciding? && s.controller.group !in s.decisions
    ensures Leads(s, i, states, steps)
  {
    var decision: map<SetId, Option<RelayId>> := map id | id in s.controller.seen :: None;
    assert decision.Keys == s.controller.seen;
    states, steps := NotifyLeads(Next(s, Record(decision)), i);
    states, steps := LeadsFrom(s, i, Record(decision), states, steps);
  }

  /** A controller about to decide for a group that has no decision. */
  lemma WantingLeads(s: State, i: nat) returns (states: seq<State>, steps: seq<Step>)
    requires Waits(s, i) && s.controller.Wanting? && s.controller.group !in s.decisions && s.sets != map[]
    ensures Leads(s, i, states, steps)
  {
    states, steps := RecordLeads(Next(s, Snapshot), i);
    states, steps := LeadsFrom(s, i, Snapshot, states, steps);
  }

  /** How far the controller is from being ready. */
  function Rank(controller: Controller): nat {
    if controller.Ready? then 0 else if controller.Deciding? then 1 else 2
  }

  /** The step brings the controller nearer to being ready and changes nothing else. */
  ghost predicate Nearer(s: State, step: Step, i: nat) {
    && Enabled(s, step) && !step.Assign? && step != GiveUp(i)
    && Next(s, step) == s.(controller := Next(s, step).controller)
    && Rank(Next(s, step).controller) < Rank(s.controller)
  }

  /** A controller that has something in hand either comes to notify or comes nearer to being ready. */
  lemma FinishesOr(s: State, i: nat) returns (states: seq<State>, steps: seq<Step>, step: Step)
    requires Waits(s, i) && !s.controller.Ready?
    ensures Leads(s, i, states, steps) || Nearer(s, step, i)
  {
    states, steps, step := [], [], Notify;
    match s.controller
    case Notifying => states, steps := NotifyLeads(s, i);
    case Wanting(group) =>
      step := Snapshot;
      if group !in s.decisions && s.sets != map[] {
        states, steps := WantingLeads(s, i);
      }
    case Deciding(group, seen) =>
      if group !in s.decisions {
        states, steps := RecordLeads(s, i);
      } else {
        var decision: map<SetId, Option<RelayId>> := map id | id in seen :: None;
        assert decision.Keys == seen;
        step := Record(decision);
      }
  }

  /** The controller comes to every group it was asked for. */
  lemma {:induction false} AskedLeads(s: State, i: nat, k: nat) returns (states: seq<State>, steps: seq<Step>)
    requires Waits(s, i) && k < |s.asked| && WillServe(s, s.asked[k])
    ensures Leads(s, i, states, steps)
    decreases k, Rank(s.controller)
  {
    if s.controller.Ready? {
      var s' := Next(s, Receive);
      if s'.controller.Notifying? {
        states, steps := NotifyLeads(s', i);
      } else if s.sets != map[] {
        states, steps := WantingLeads(s', i);
      } else {
        states, steps := AskedLeads(s', i, k - 1);
      }
      states, steps := LeadsFrom(s, i, Receive, states, steps);
    } else {
      var step;
      states, steps, step := FinishesOr(s, i);
      if !Leads(s, i, states, steps) {
        states, steps := AskedLeads(Next(s, step), i, k);
        states, steps := LeadsFrom(s, i, step, states, steps);
      }
    }
  }

  /** The group the controller decides again from time to time. */
  lemma {:induction false} LastGroupLeads(s: State, i: nat) returns (states: seq<State>, steps: seq<Step>)
    requires Waits(s, i) && s.lastGroup.Some? && s.lastGroup.value !in s.decisions && s.sets != map[]
    ensures Leads(s, i, states, steps)
    decreases Rank(s.controller)
  {
    if s.controller.Ready? {
      states, steps := WantingLeads(Next(s, Tick), i);
      states, steps := LeadsFrom(s, i, Tick, states, steps);
    } else {
      var step;
      states, steps, step := FinishesOr(s, i);
      if !Leads(s, i, states, steps) {
        states, steps := LastGroupLeads(Next(s, step), i);
        states, steps := LeadsFrom(s, i, step, states, steps);
      }
    }
  }

  lemma AskingLeads(s: State, i: nat, j: nat) returns (states: seq<State>, steps: seq<Step>)
    requires Waits(s, i) && j < |s.gates| && WillAsk(s, s.gates[j])
    ensures Leads(s, i, states, steps)
  {
    var s' := Next(s, ReadDecision(j));
    states, steps := AskedLeads(s', i, |s.asked|);
    states, steps := LeadsFrom(s, i, ReadDecision(j), states, steps);
  }

  /** Another gate whose track is in a set asks. */
  lemma IdleGateLeads(s: State, i: nat, j: nat, group: U64, setId: SetId) returns (states: seq<State>, steps: seq<Step>)
    requires Waits(s, i) && j < |s.gates| && j != i && s.gates[j].at.Idle? && s.gates[j].stamp.epoch != s.epoch
    requires SetOf(s, s.gates[j].name) == Some(setId) && Undecided(s, group, setId)
    ensures Leads(s, i, states, steps)
  {
    var s1 := Next(s, Ask(j, group));
    var s2 := Next(s1, SampleEpoch(j));
    var s3 := Next(s2, ReadSet(j));
    states, steps := AskingLeads(s3, i, j);
    states, steps := LeadsFrom(s2, i, ReadSet(j), states, steps);
    states, steps := LeadsFrom(s1, i, SampleEpoch(j), states, steps);
    states, steps := LeadsFrom(s, i, Ask(j, group), states, steps);
  }

  /** Or it gives up what it is at first, and a change of the set makes its stamp old. */
  lemma {:induction false} OtherGateLeads(s: State, i: nat, j: nat, group: U64, setId: SetId) returns (states: seq<State>, steps: seq<Step>)
    requires Waits(s, i) && j < |s.gates| && j != i && SetOf(s, s.gates[j].name) == Some(setId) && Undecided(s, group, setId)
    ensures Leads(s, i, states, steps)
    decreases if s.gates[j].at.Idle? then 0 else 1, if s.gates[j].stamp.epoch == s.epoch then 1 else 0
  {
    var gate := s.gates[j];
    if !gate.at.Idle? {
      states, steps := OtherGateLeads(Next(s, GiveUp(j)), i, j, group, setId);
      states, steps := LeadsFrom(s, i, GiveUp(j), states, steps);
    } else if gate.stamp.epoch == s.epoch {
      states, steps := OtherGateLeads(Next(s, UpdateSet(gate.name)), i, j, group, setId);
      states, steps := LeadsFrom(s, i, UpdateSet(gate.name), states, steps);
    } else {
      states, steps := IdleGateLeads(s, i, j, group, setId);
    }
  }

  lemma MayNotifyLeads(s: State, i: nat) returns (states: seq<State>, steps: seq<Step>)
    requires Waits(s, i) && MayStillNotify(s, i)
    ensures Leads(s, i, states, steps)
  {
    if s.controller.Notifying? {
      states, steps := NotifyLeads(s, i);
    } else if s.controller.Deciding? && s.controller.group !in s.decisions {
      states, steps := RecordLeads(s, i);
    } else if s.controller.Wanting? && s.controller.group !in s.decisions && s.sets != map[] {
      states, steps := WantingLeads(s, i);
    } else if s.lastGroup.Some? && s.lastGroup.value !in s.decisions && s.sets != map[] {
      states, steps := LastGroupLeads(s, i);
    } else if k: nat :| k < |s.asked| && WillServe(s, s.asked[k]) {
      states, steps := AskedLeads(s, i, k);
    } else if j: nat :| j < |s.gates| && WillAsk(s, s.gates[j]) {
      states, steps := AskingLeads(s, i, j);
    } else {
      var j: nat :| j < |s.gates| && j != i && CouldAsk(s, s.gates[j]);
      var setId, group: U64 :| SetOf(s, s.gates[j].name) == Some(setId) && Undecided(s, group, setId);
      states, steps := OtherGateLeads(s, i, j, group, setId);
    }
  }

  /**
   An Object that waits can only be given up, short of a new assignment, exactly if nothing
   under way and nothing that can come brings a notification. If its track has left its set
   the Object is nevertheless to be forwarded.
   */
  lemma UnansweredExactly(s: State, i: nat)
    requires Waits(s, i)
    ensures Unanswered(s, i) <==> !MayStillNotify(s, i)
    ensures SetOf(s, s.gates[i].name).None? ==> Fresh(s, s.gates[i], s.gates[i].at.group) == Some(true)
  {
    if MayStillNotify(s, i) {
      var states, steps := MayNotifyLeads(s, i);
      assert !Unanswered(s, i);
    } else {
      forall states, steps | IsPath(states, steps) && states[0] == s && NoAssign(steps) && NeverGivesUp(steps, i)
        ensures StillWaits(s, states[|steps|], i)
      {
        StaysStuck(states, steps, |steps|, i);
      }
    }
  }

  /** A track in no set is not held back by a stamp from when it was in one. */
  ghost predicate FreeStampsForward(s: State) {
    forall i :: 0 <= i < |s.gates| && Current(s, s.gates[i]) && SetOf(s, s.gates[i].name).None? ==> s.gates[i].stamp.forward
  }

  lemma StepKeepsFreeStamps(s: State, step: Step)
    requires Inv(s) && FreeStampsForward(s) && Enabled(s, step)
    ensures FreeStampsForward(Next(s, step))
  {
    var s' := Next(s, step);
    if IsGateStep(step) {
      GateStepFrame(s, step);
      assert GateHolds(s, s.gates[step.i]);
    }
    forall i | 0 <= i < |s'.gates| && Current(s', s'.gates[i]) && SetOf(s', s'.gates[i].name).None? ensures s'.gates[i].stamp.forward {
      if !IsGateStep(step) {
        EnvironmentStep(s, step, s.gates[i].name);
        assert GateHolds(s, s.gates[i]);
      }
    }
  }

  lemma {:induction false} RunKeepsFreeStamps(states: seq<State>, steps: seq<Step>, n: nat)
    requires IsRun(states, steps) && n < |states|
    ensures FreeStampsForward(states[n])
  {
    if n > 0 {
      RunKeepsFreeStamps(states, steps, n - 1);
      RunKeepsInv(states, steps, n - 1);
      StepKeepsFreeStamps(states[n - 1], steps[n - 1]);
    }
  }

  /** What an idle gate answers an Object if nothing comes in between: from its stamp, or by resolving. */
  ghost function AnswerAlone(s: State, i: nat, group: U64): Option<bool>
    requires i < |s.gates| && s.gates[i].at.Idle?
  {
    var asked := Next(s, Ask(i, group));
    if asked.gates[i].at.Idle? then Some(s.gates[i].stamp.forward)
    else
      var read := Next(Next(asked, SampleEpoch(i)), ReadSet(i));
      var done := if read.gates[i].at.HaveSet? then Next(read, ReadDecision(i)) else read;
      if done.gates[i].at.Idle? then Some(done.gates[i].stamp.forward) else None
  }

  /**
   In every run, once a track is in no set and its gate is idle again, after giving up or
   otherwise, its next Object is forwarded, whatever its group.
   */
  lemma NextObjectIsForwarded(states: seq<State>, steps: seq<Step>, n: nat, i: nat, group: U64)
    requires IsRun(states, steps) && n < |states| && i < |states[n].gates| && group < NOTHING_CACHED
    requires states[n].gates[i].at.Idle? && SetOf(states[n], states[n].gates[i].name).None?
    ensures AnswerAlone(states[n], i, group) == Some(true)
  {
    RunKeepsFreeStamps(states, steps, n);
  }

  /** A track asks for a group and is taken out of its set before the controller decides. */
  lemma TornDownWhileWaiting() returns (states: seq<State>, steps: seq<Step>)
    ensures IsRun(states, steps)
    ensures
      var s := states[|steps|];
      && s.sets == map[] && Waits(s, 0) && !MayStillNotify(s, 0) && SetOf(s, s.gates[0].name).None?
      && |s.gates| == 1 && s.gates[0].at.group == 10
  {
    var s0 := State(0, map[], map[], map[], 0, None, [], Ready, 0, [Gate("low", 1, NOTHING, Idle)]);
    states, steps := Extend([s0], [], Assign("low", 1, 0, 7), Assigned(s0, "low", 1, 0, 7));
    states, steps := AskAndWait(states, steps, 0, 10, 7);
    states, steps := Extend(states, steps, Remove("low"), Removed(states[|steps|], "low"));
  }

  /**
   Such a run: a track asks for a group, is taken out of its set before the controller
   decides, and its Object waits unanswered until the event loop gives it up. The next
   Object of the same group is forwarded.
   */
  lemma TeardownDropsTheObject() returns (states: seq<State>, steps: seq<Step>, n: nat)
    ensures IsRun(states, steps) && n < |steps| && steps[n] == GiveUp(0)
    ensures
      var s := states[n];
      && s.sets == map[] && Waits(s, 0) && Unanswered(s, 0)
      && Fresh(s, s.gates[0], s.gates[0].at.group) == Some(true)
    ensures
      var s, gate := states[|steps|], states[n].gates[0];
      && |steps| == n + 1 && |s.gates| == 1 && s.gates[0].at.Idle? && s.gates[0].stamp == gate.stamp
      && AnswerAlone(s, 0, gate.at.group) == Some(true)
  {
    states, steps := TornDownWhileWaiting();
    n := |steps|;
    var s := states[n];
    UnansweredExactly(s, 0);
    states, steps := Extend(states, steps, GiveUp(0), Put(s, 0, s.gates[0].(at := Idle)));
    NextObjectIsForwarded(states, steps, |steps|, 0, 10);
  }

  /** Group 20 is decided, and the track asks for group 10. */
  lemma AskAfterADecision() returns (states: seq<State>, steps: seq<Step>)
    ensures IsRun(states, steps)
    ensures
      var s := states[|steps|];
      && s.sets == map[7 := map["low" := Member(1, {0})]] && s.trackToSet == map["low" := 7] && s.asked == [10]
      && s.controller.Ready? && s.lastGroup == Some(20) && s.decisions == map[20 := map[7 := Some(1)]]
      && |s.gates| == 1 && s.gates[0].name == "low" && Waits(s, 0)
  {
    var s0 := State(0, map[], map[], map[], 0, None, [], Ready, 0, [Gate("low", 1, NOTHING, Idle)]);
    var s1 := Assigned(s0, "low", 1, 0, 7);
    var holders: set<RequestId> := {0};
    assert holders + {} == holders;
    assert s1.sets == map[7 := map["low" := Member(1, {0})]] && s1.sets.Keys == {7};
    states, steps := Extend([s0], [], Assign("low", 1, 0, 7), s1);
    states, steps := AskAndResolve(states, steps, 0, 20, 1);
    states, steps := AskAndWait(states, steps, 0, 10, 7);
  }

  /** The track is taken out of the only set, and the controller finds none to decide for. */
  lemma TornDownAfterADecision() returns (states: seq<State>, steps: seq<Step>)
    ensures IsRun(states, steps)
    ensures
      var s := states[|steps|];
      && s.sets == map[] && s.trackToSet == map[] && s.asked == [] && s.controller.Ready?
      && s.lastGroup == Some(20) && 20 in s.decisions && |s.gates| == 1 && s.gates[0].name == "low" && Waits(s, 0)
  {
    states, steps := AskAfterADecision();
    var s := states[|steps|].(sets := map[], trackToSet := map[], epoch := states[|steps|].epoch + 1);
    var s1 := s.(asked := [], controller := Wanting(10), largest := Larger(10, s.largest));
    states, steps := Extend(states, steps, Remove("low"), s);
    states, steps := Extend(states, steps, Receive, s1);
    states, steps := Extend(states, steps, Snapshot, s1.(controller := Ready));
  }

  /** Then another track is assigned to a set: the Object still waits in vain. */
  lemma WaitsBesideAnotherSet() returns (states: seq<State>, steps: seq<Step>)
    ensures IsRun(states, steps)
    ensures
      var s := states[|steps|];
      && s.sets != map[] && Waits(s, 0) && Unanswered(s, 0)
      && Fresh(s, s.gates[0], s.gates[0].at.group) == Some(true)
  {
    states, steps := TornDownAfterADecision();
    var s := Assigned(states[|steps|], "other", 2, 2, 8);
    assert 8 in s.sets && SetOf(s, "low").None?;
    states, steps := Extend(states, steps, Assign("other", 2, 2, 8), s);
    OnlyOneGate(s);
    UnansweredExactly(s, 0);
  }

  lemma OnlyOneGate(s: State)
    requires |s.gates| == 1 && Waits(s, 0) && s.asked == [] && s.controller.Ready? && s.lastGroup.Some? && s.lastGroup.value in s.decisions
    ensures !MayStillNotify(s, 0)
  {
  }

  // ---- A track that joins a set after its group was decided ----

  /** The group has its decision, the track is in this set, and the decision says nothing of it. */
  ghost predicate Late(s: State, name: Name, group: U64, setId: SetId) {
    SetOf(s, name) == Some(setId) && group in s.decisions && setId !in s.decisions[group]
  }

  /** Recording the step's decision prunes this group. */
  ghost predicate Prunes(s: State, step: Step, group: U64) {
    && step.Record? && s.controller.Deciding? && s.controller.group !in s.decisions
    && group in s.decisions && group < OldestKept(s.largest)
  }

  /** A decision is final: being late ends exactly when the group is pruned or the track's set changes. */
  lemma LateEndsExactly(s: State, step: Step, name: Name, group: U64, setId: SetId)
    requires Late(s, name, group, setId) && Enabled(s, step)
    ensures Late(Next(s, step), name, group, setId) <==>
      SetOf(Next(s, step), name) == Some(setId) && !Prunes(s, step, group)
  {
  }

  /** The gate is resolving this group, and has met no other set. */
  ghost predicate Pursues(gate: Gate, group: U64, setId: SetId) {
    match gate.at
    case Idle => false
    case Registered(g, _) => g == group
    case Sampled(g, _, _) => g == group
    case HaveSet(g, _, _, id) => g == group && id == setId
    case Blocked(g, _, id) => g == group && id == setId
  }

  /**
   On every path, as long as the track stays in the set and the group is not pruned, the
   Object is not answered, however often it is notified: it waits until it is given up.
   */
  lemma {:induction false} LateIsNotAnswered(states: seq<State>, steps: seq<Step>, n: nat, i: nat, group: U64, setId: SetId)
    requires IsPath(states, steps) && n < |states| && NeverGivesUp(steps, i) && i < |states[0].gates|
    requires Late(states[0], states[0].gates[i].name, group, setId) && Pursues(states[0].gates[i], group, setId)
    requires forall k :: 0 <= k <= n ==> SetOf(states[k], states[0].gates[i].name) == Some(setId)
    requires forall k :: 0 <= k < n ==> !Prunes(states[k], steps[k], group)
    ensures i < |states[n].gates| && states[n].gates[i].name == states[0].gates[i].name
    ensures Late(states[n], states[n].gates[i].name, group, setId) && Fresh(states[n], states[n].gates[i], group).None?
    ensures Pursues(states[n].gates[i], group, setId) && states[n].gates[i].stamp == states[0].gates[i].stamp
  {
    if n > 0 {
      LateIsNotAnswered(states, steps, n - 1, i, group, setId);
      LateEndsExactly(states[n - 1], steps[n - 1], states[0].gates[i].name, group, setId);
    }
  }

  /** Group 10 is decided while set 7 is the only one. */
  lemma DecideForSeven() returns (states: seq<State>, steps: seq<Step>)
    ensures IsRun(states, steps)
    ensures
      var s := states[|steps|];
      && |s.gates| == 2 && s.gates[1] == Gate("high", 2, NOTHING, Idle) && "high" !in s.trackToSet && s.sets.Keys == {7}
      && s.decisions == map[10 := map[7 := Some(1)]] && s.controller.Ready? && s.asked == []
  {
    var s0 := State(0, map[], map[], map[], 0, None, [], Ready, 0, [Gate("low", 1, NOTHING, Idle), Gate("high", 2, NOTHING, Idle)]);
    var s1 := Assigned(s0, "low", 1, 0, 7);
    assert s1.sets.Keys == {7};
    states, steps := Extend([s0], [], Assign("low", 1, 0, 7), s1);
    states, steps := AskAndResolve(states, steps, 0, 10, 1);
  }

  /** Then another track joins set 8 and asks for the group. */
  lemma JoinsLate() returns (states: seq<State>, steps: seq<Step>)
    ensures IsRun(states, steps)
    ensures
      var s := states[|steps|];
      && |s.gates| == 2 && s.gates[1].name == "high" && Waits(s, 1) && s.gates[1].at.group == 10 && s.gates[1].at.setId == 8
      && Late(s, "high", 10, 8) && s.controller.Ready? && s.asked == [10]
  {
    states, steps := DecideForSeven();
    var s := states[|steps|];
    states, steps := Extend(states, steps, Assign("high", 2, 2, 8), Assigned(s, "high", 2, 2, 8));
    states, steps := AskAndWait(states, steps, 1, 10, 8);
  }

  /** What one round of asking and being notified leaves: the same wait, one notification later. */
  ghost function AfterRound(s: State, i: nat, group: U64, setId: SetId): State
    requires i < |s.gates|
  {
    Put(NotifiedOf(s, group), i, s.gates[i].(at := Blocked(group, s.notified + 1, setId))).(asked := [group])
  }

  /** The controller finds the group it was asked for decided, and notifies. */
  ghost function NotifiedOf(s: State, group: U64): State {
    s.(asked := [],
       lastGroup := Some(if s.lastGroup.Some? then Larger(group, s.lastGroup.value) else group),
       largest := Larger(group, s.largest), notified := s.notified + 1)
  }

  lemma NotifyAgain(states: seq<State>, steps: seq<Step>, group: U64)
    returns (states': seq<State>, steps': seq<Step>)
    requires IsRun(states, steps)
    requires
      var s := states[|steps|];
      s.controller.Ready? && s.asked == [group] && group in s.decisions
    ensures IsRun(states', steps') && states'[|steps'|] == NotifiedOf(states[|steps|], group)
  {
    var s := states[|steps|];
    states', steps' := Extend(states, steps, Receive, Received(s));
    states', steps' := Extend(states', steps', Notify, NotifiedOf(s, group));
  }

  lemma Round(states: seq<State>, steps: seq<Step>, i: nat, group: U64, setId: SetId)
    returns (states': seq<State>, steps': seq<Step>)
    requires IsRun(states, steps)
    requires
      var s := states[|steps|];
      && Waits(s, i) && s.gates[i].at.group == group && s.gates[i].at.setId == setId
      && Late(s, s.gates[i].name, group, setId) && s.controller.Ready? && s.asked == [group]
    ensures IsRun(states', steps') && states'[|steps'|] == AfterRound(states[|steps|], i, group, setId)
  {
    var s2 := NotifiedOf(states[|steps|], group);
    var gate := s2.gates[i];
    states', steps' := NotifyAgain(states, steps, group);
    states', steps' := Extend(states', steps', Wake(i), Put(s2, i, gate.(at := Registered(group, s2.notified))));
    states', steps' := ReadOn(states', steps', i, group, setId);
    states', steps' := Extend(states', steps', ReadDecision(i),
      Put(s2, i, gate.(at := Blocked(group, s2.notified, setId))).(asked := [group]));
  }

  /** Such a run, with as many rounds as one likes: each ends as it began. */
  lemma {:induction false} LateTrackKeepsAsking(rounds: nat) returns (states: seq<State>, steps: seq<Step>)
    ensures IsRun(states, steps)
    ensures
      var s := states[|steps|];
      && |s.gates| == 2 && s.gates[1].name == "high" && Waits(s, 1) && s.gates[1].at.group == 10 && s.gates[1].at.setId == 8
      && Late(s, "high", 10, 8) && s.controller.Ready? && s.asked == [10] && s.notified >= rounds
  {
    if rounds == 0 {
      states, steps := JoinsLate();
    } else {
      states, steps := LateTrackKeepsAsking(rounds - 1);
      states, steps := Round(states, steps, 1, 10, 8);
    }
  }
}
