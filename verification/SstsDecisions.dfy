/**
 The decisions the controller keeps and the groups it has heard of, told from the steps of a
 run: which group is decided and how, which are forgotten, and what the next one is kept
 against.
 */
module SstsDecisions {
  import opened Locations
  import opened SstsGate

  // ---- Decisions ----

  /** The step records the first decision for the group. */
  ghost predicate Decides(s: State, step: Step, group: U64) {
    step.Record? && s.controller.Deciding? && s.controller.group == group && group !in s.decisions
  }

  /** The step records a decision for a group that had none, and this group is more than five behind the largest heard of. */
  ghost predicate Forgets(s: State, step: Step, group: U64) {
    && step.Record? && s.controller.Deciding? && s.controller.group !in s.decisions
    && s.controller.group != group && group + 5 < s.largest
  }

  /** Step `k` decided the group, and it was not forgotten since. */
  ghost predicate DecidedAt(states: seq<State>, steps: seq<Step>, k: nat, n: nat, group: U64)
    requires k < n <= |steps| < |states|
  {
    Decides(states[k], steps[k], group) && forall j :: k < j < n ==> !Forgets(states[j], steps[j], group)
  }

  ghost predicate IsDecided(states: seq<State>, steps: seq<Step>, n: nat, group: U64)
    requires n <= |steps| < |states|
  {
    exists k :: 0 <= k < n && DecidedAt(states, steps, k, n, group)
  }

  lemma RecordDecides(s: State, step: Step, s': State, group: U64)
    requires Enabled(s, step) && step.Record? && s' == Recorded(s, s.controller.group, step.decision)
    ensures Decides(s, step, group) ==> group in s'.decisions && s'.decisions[group] == step.decision
    ensures Forgets(s, step, group) ==> group !in s'.decisions
    ensures !Decides(s, step, group) && !Forgets(s, step, group) ==>
      (group in s'.decisions <==> group in s.decisions) && (group in s.decisions ==> s'.decisions[group] == s.decisions[group])
  {
  }

  lemma OthersDecideNothing(s: State, step: Step, s': State)
    requires Enabled(s, step) && !step.Record? && s' == Next(s, step)
    ensures s'.decisions == s.decisions
  {
  }

  /** What a step makes of the decision for a group. */
  lemma StepDecides(s: State, step: Step, s': State, group: U64)
    requires Enabled(s, step) && s' == Next(s, step)
    ensures Decides(s, step, group) ==> group in s'.decisions && s'.decisions[group] == step.decision
    ensures Forgets(s, step, group) ==> group !in s'.decisions
    ensures !Decides(s, step, group) && !Forgets(s, step, group) ==>
      (group in s'.decisions <==> group in s.decisions) && (group in s.decisions ==> s'.decisions[group] == s.decisions[group])
  {
    if step.Record? {
      RecordDecides(s, step, s', group);
    } else {
      OthersDecideNothing(s, step, s');
    }
  }

  lemma DecidedOneMore(states: seq<State>, steps: seq<Step>, n: nat, group: U64)
    requires 0 < n <= |steps| < |states|
    ensures IsDecided(states, steps, n, group) <==>
      || Decides(states[n - 1], steps[n - 1], group)
      || (IsDecided(states, steps, n - 1, group) && !Forgets(states[n - 1], steps[n - 1], group))
  {
    if IsDecided(states, steps, n, group) {
      var k :| 0 <= k < n && DecidedAt(states, steps, k, n, group);
      assert k < n - 1 ==> DecidedAt(states, steps, k, n - 1, group) && !Forgets(states[n - 1], steps[n - 1], group);
    }
    if Decides(states[n - 1], steps[n - 1], group) {
      assert DecidedAt(states, steps, n - 1, n, group);
    }
    if IsDecided(states, steps, n - 1, group) && !Forgets(states[n - 1], steps[n - 1], group) {
      var k :| 0 <= k < n - 1 && DecidedAt(states, steps, k, n - 1, group);
      assert DecidedAt(states, steps, k, n, group);
    }
  }

  /**
   In every run a group is decided exactly if a decision was recorded for it and not
   forgotten since, by a recording for another group when this one was more than five
   behind; and the decision is the one recorded first, whatever was recorded later.
   */
  lemma {:induction false} DecidedExactly(states: seq<State>, steps: seq<Step>, n: nat, group: U64)
    requires IsRun(states, steps) && n < |states|
    ensures group in states[n].decisions <==> IsDecided(states, steps, n, group)
    ensures forall k :: 0 <= k < n && DecidedAt(states, steps, k, n, group) ==>
      group in states[n].decisions && states[n].decisions[group] == steps[k].decision
  {
    if n > 0 {
      DecidedExactly(states, steps, n - 1, group);
      DecidedOneMore(states, steps, n, group);
      StepDecides(states[n - 1], steps[n - 1], states[n], group);
      forall k | 0 <= k < n && DecidedAt(states, steps, k, n, group)
        ensures group in states[n].decisions && states[n].decisions[group] == steps[k].decision
      {
        assert k < n - 1 ==> DecidedAt(states, steps, k, n - 1, group) && !Forgets(states[n - 1], steps[n - 1], group);
      }
    }
  }

  // ---- What the controller was asked for and has heard of ----

  /** The groups resolvers asked for in the first `n` steps, in order. */
  ghost function AskedFor(states: seq<State>, steps: seq<Step>, n: nat): seq<U64>
    requires n <= |steps| < |states|
  {
    if n == 0 then []
    else AskedFor(states, steps, n - 1) + if Asks(states[n - 1], steps[n - 1]) then [states[n - 1].gates[steps[n - 1].i].at.group] else []
  }

  /** A resolver has read its set and finds no decision for it. */
  ghost predicate Asks(s: State, step: Step) {
    && step.ReadDecision? && step.i < |s.gates| && s.gates[step.i].at.HaveSet?
    && !(s.gates[step.i].at.group in s.decisions && s.gates[step.i].at.setId in s.decisions[s.gates[step.i].at.group])
  }

  ghost function Taken(steps: seq<Step>, n: nat): nat
    requires n <= |steps|
  {
    if n == 0 then 0 else Taken(steps, n - 1) + if steps[n - 1].Receive? then 1 else 0
  }

  /** A group the controller got to, or a stream of which timed out. */
  ghost predicate Heard(states: seq<State>, steps: seq<Step>, n: nat, group: U64)
    requires n <= |steps| < |states|
  {
    Among(AskedFor(states, steps, n), Taken(steps, n), group) || Timeout(group) in steps[..n]
  }

  /** The group is one of the first `n`. */
  ghost predicate Among(groups: seq<U64>, n: nat, group: U64) {
    exists k :: 0 <= k < n && k < |groups| && groups[k] == group
  }

  /** More is asked for, and perhaps the next one taken. */
  lemma AmongOneMore(before: seq<U64>, after: seq<U64>, taken: nat, taken': nat, group: U64)
    requires |before| <= |after| && after[..|before|] == before && taken <= taken' <= taken + 1 && taken' <= |before|
    ensures Among(after, taken', group) <==> Among(before, taken, group) || (taken < taken' && before[taken] == group)
  {
    assert forall k :: 0 <= k < |before| ==> after[k] == after[..|before|][k] == before[k];
  }

  lemma StepAsks(s: State, step: Step, s': State)
    requires Enabled(s, step) && s' == Next(s, step)
    ensures s'.asked ==
      (if step.Receive? then s.asked[1..] else s.asked) + (if Asks(s, step) then [s.gates[step.i].at.group] else [])
    ensures s'.largest ==
      if step.Receive? then Larger(s.asked[0], s.largest) else if step.Timeout? then Larger(step.group, s.largest) else s.largest
  {
  }

  /** In every run what is still to be taken is what was asked for, in order, without what was taken. */
  lemma {:induction false} AskedInOrder(states: seq<State>, steps: seq<Step>, n: nat)
    requires IsRun(states, steps) && n < |states|
    ensures Taken(steps, n) <= |AskedFor(states, steps, n)|
    ensures states[n].asked == AskedFor(states, steps, n)[Taken(steps, n)..]
  {
    if n > 0 {
      AskedInOrder(states, steps, n - 1);
      StepAsks(states[n - 1], steps[n - 1], states[n]);
    }
  }

  /** And the largest group heard of is the largest of those taken and timed out: none is larger, and it is one of them, or 0. */
  lemma {:induction false} LargestHeard(states: seq<State>, steps: seq<Step>, n: nat, group: U64)
    requires IsRun(states, steps) && n < |states|
    ensures Heard(states, steps, n, group) ==> group <= states[n].largest
    ensures states[n].largest == 0 || Heard(states, steps, n, states[n].largest)
  {
    if n > 0 {
      LargestHeard(states, steps, n - 1, group);
      AskedInOrder(states, steps, n - 1);
      StepAsks(states[n - 1], steps[n - 1], states[n]);
      HeardOneMore(states, steps, n, group);
      HeardOneMore(states, steps, n, states[n].largest);
    }
  }

  lemma HeardOneMore(states: seq<State>, steps: seq<Step>, n: nat, group: U64)
    requires IsRun(states, steps) && 0 < n <= |steps|
    requires Taken(steps, n - 1) <= |AskedFor(states, steps, n - 1)|
    requires states[n - 1].asked == AskedFor(states, steps, n - 1)[Taken(steps, n - 1)..]
    ensures Heard(states, steps, n, group) <==>
      || Heard(states, steps, n - 1, group) || steps[n - 1] == Timeout(group)
      || (steps[n - 1].Receive? && states[n - 1].asked[0] == group)
  {
    assert steps[..n] == steps[..n - 1] + [steps[n - 1]];
    TakenOneMore(states, steps, n, group);
  }

  lemma TakenOneMore(states: seq<State>, steps: seq<Step>, n: nat, group: U64)
    requires IsRun(states, steps) && 0 < n <= |steps|
    requires Taken(steps, n - 1) <= |AskedFor(states, steps, n - 1)|
    requires states[n - 1].asked == AskedFor(states, steps, n - 1)[Taken(steps, n - 1)..]
    ensures Among(AskedFor(states, steps, n), Taken(steps, n), group) <==>
      || Among(AskedFor(states, steps, n - 1), Taken(steps, n - 1), group)
      || (steps[n - 1].Receive? && states[n - 1].asked[0] == group)
  {
    var before, after, taken := AskedFor(states, steps, n - 1), AskedFor(states, steps, n), Taken(steps, n - 1);
    assert after[..|before|] == before;
    assert Enabled(states[n - 1], steps[n - 1]);
    AmongOneMore(before, after, taken, Taken(steps, n), group);
  }

  // ---- What the controller does next ----

  /** The largest group taken so far is what the controller decides again after a timeout and at a tick. */
  lemma {:induction false} LastGroupIsLargestTaken(states: seq<State>, steps: seq<Step>, n: nat, group: U64)
    requires IsRun(states, steps) && n < |states|
    ensures states[n].lastGroup.None? <==> Taken(steps, n) == 0
    ensures Among(AskedFor(states, steps, n), Taken(steps, n), group) ==>
      states[n].lastGroup.Some? && group <= states[n].lastGroup.value
    ensures states[n].lastGroup.Some? ==> Among(AskedFor(states, steps, n), Taken(steps, n), states[n].lastGroup.value)
  {
    if n > 0 {
      LastGroupIsLargestTaken(states, steps, n - 1, group);
      AskedInOrder(states, steps, n - 1);
      LastGroupMoves(states[n - 1], steps[n - 1], states[n]);
      TakenOneMore(states, steps, n, group);
      if states[n].lastGroup.Some? {
        TakenOneMore(states, steps, n, states[n].lastGroup.value);
      }
    }
  }

  lemma LastGroupMoves(s: State, step: Step, s': State)
    requires Enabled(s, step) && s' == Next(s, step)
    ensures s'.lastGroup ==
      if step.Receive? then Some(if s.lastGroup.Some? then Larger(s.asked[0], s.lastGroup.value) else s.asked[0]) else s.lastGroup
  {
  }

  /**
   A message or a tick makes the controller notify for a group that is decided, or decide for
   the one it asks about, a timeout and a tick for the largest group taken. It decides for the
   sets there are when it looks, and for none if there are none; it records only what is
   not recorded yet, and notifies after that.
   */
  lemma ControllerExactly(s: State, step: Step, s': State)
    requires Enabled(s, step) && s' == Next(s, step)
    ensures s'.controller ==
      match step
      case Receive => if s.asked[0] in s.decisions then Notifying else Wanting(s.asked[0])
      case Timeout(_) => if s.lastGroup.Some? then Wanting(s.lastGroup.value) else Ready
      case Tick => Wanting(s.lastGroup.value)
      case Snapshot => if s.sets.Keys == {} then Ready else Deciding(s.controller.group, s.sets.Keys)
      case Record(_) => if s.controller.group in s.decisions then Ready else Notifying
      case Notify => Ready
      case _ => s.controller
    ensures s'.notified == s.notified + if step.Notify? then 1 else 0
  {
  }

  /** A resolver is asked nothing anew, and the cached answer stands, exactly if the stamp is of the group and of the present epoch. */
  lemma CachedExactly(s: State, i: nat, group: U64)
    requires Enabled(s, Ask(i, group))
    ensures Next(s, Ask(i, group)) == s <==> s.gates[i].stamp.group == group && s.gates[i].stamp.epoch == s.epoch
    ensures Next(s, Ask(i, group)) != s ==> Next(s, Ask(i, group)).gates[i] == s.gates[i].(at := Registered(group, s.notified))
  {
    var s' := Next(s, Ask(i, group));
    assert s'.gates[i].at.Idle? <==> s' == s;
  }
}
