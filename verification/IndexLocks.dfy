/**
 The three indexes of a track's subscriptions under concurrent operations.

 Each index has its own lock. Adding keeps every lock it takes until it ends; removing
 gives the first one back once it has the second; detaching holds one lock at a time.
 A task is one such operation and a step is one task's next stretch between two lock
 operations, so a run is any interleaving of any number of operations.
 */
module IndexLocks {
  import opened SubscriptionManager

  datatype Work = Adding(id: SubscriptionId) | Removing(id: SubscriptionId) | Detaching

  /** `at` counts the steps taken. An addition that finds its ID taken jumps to REFUSED. */
  datatype Task = Task(work: Work, at: nat) {
    predicate HoldsSubscriptions() {
      (work.Adding? && 1 <= at <= 2) || (work.Removing? && at == 1)
    }

    predicate HoldsRequestIds() {
      (work.Adding? || work.Removing?) && at == 2
    }

    predicate Ended() {
      if work.Detaching? then at == 2 + PARTITIONS else at >= 3
    }

    /** A detachment that has emptied the subscriptions and has yet to reach this partition. */
    predicate Sweeping(partition: nat) {
      work.Detaching? && 1 <= at <= 1 + PARTITIONS && at <= 2 + partition
    }
  }

  const REFUSED: nat := 4

  /** Which IDs each index holds. */
  datatype State = State(
    hash: SubscriptionId -> nat, subscriptions: set<SubscriptionId>, noted: set<SubscriptionId>,
    senders: set<SubscriptionId>, tasks: seq<Task>)

  predicate SubscriptionsFree(tasks: seq<Task>) {
    forall t :: t in tasks ==> !t.HoldsSubscriptions()
  }

  predicate RequestIdsFree(tasks: seq<Task>) {
    forall t :: t in tasks ==> !t.HoldsRequestIds()
  }

  /** The lock that operation needs next is free. */
  predicate Enabled(s: State, i: nat) {
    && i < |s.tasks| && !s.tasks[i].Ended()
    && (s.tasks[i].at == 0 ==> SubscriptionsFree(s.tasks))
    && (s.tasks[i].at == 1 ==> RequestIdsFree(s.tasks))
  }

  function Next(s: State, i: nat): State
    requires Enabled(s, i)
  {
    var t := s.tasks[i];
    var s' := s.(tasks := s.tasks[i := t.(at := t.at + 1)]);
    match t.work
    case Adding(id) =>
      if t.at == 0 then
        if id in s.subscriptions then s.(tasks := s.tasks[i := t.(at := REFUSED)])
        else s'.(subscriptions := s.subscriptions + {id})
      else if t.at == 1 then s'.(noted := s.noted + {id})
      else s'.(senders := s.senders + {id})
    case Removing(id) =>
      if t.at == 0 then s'.(subscriptions := s.subscriptions - {id})
      else if t.at == 1 then s'.(noted := s.noted - {id})
      else s'.(senders := s.senders - {id})
    case Detaching =>
      if t.at == 0 then s'.(subscriptions := {})
      else if t.at == 1 then s'.(noted := {})
      else s'.(senders := set id | id in s.senders && PartitionOf(s.hash, id) != t.at - 2)
  }

  ghost predicate Initial(s: State) {
    && s.subscriptions == s.noted == s.senders
    && forall t :: t in s.tasks ==> t.at == 0
  }

  ghost predicate IsRun(states: seq<State>, steps: seq<nat>) {
    && |states| == |steps| + 1 && Initial(states[0])
    && forall n :: 0 <= n < |steps| ==> Enabled(states[n], steps[n]) && states[n + 1] == Next(states[n], steps[n])
  }

  /** A detachment is under way that has yet to empty this ID's partition. */
  ghost predicate Swept(s: State, id: SubscriptionId) {
    exists t :: t in s.tasks && t.Sweeping(PartitionOf(s.hash, id))
  }

  /** An addition of this ID ends in the midst of such a detachment. */
  ghost predicate EndsUnderSweep(s: State, i: nat, id: SubscriptionId) {
    i < |s.tasks| && s.tasks[i] == Task(Adding(id), 2) && Swept(s, id)
  }

  // ---- What every step keeps ----

  ghost predicate OneAtATime(tasks: seq<Task>) {
    && (forall i, j :: 0 <= i < j < |tasks| ==> !(tasks[i].HoldsSubscriptions() && tasks[j].HoldsSubscriptions()))
    && (forall i, j :: 0 <= i < j < |tasks| ==> !(tasks[i].HoldsRequestIds() && tasks[j].HoldsRequestIds()))
  }

  /** What a task that is part way through knows of its ID. */
  ghost predicate Underway(s: State, id: SubscriptionId) {
    && (Task(Adding(id), 1) in s.tasks ==> id in s.subscriptions)
    && (Task(Adding(id), 2) in s.tasks ==> id in s.subscriptions && id in s.noted)
    && (Task(Removing(id), 1) in s.tasks ==> id !in s.subscriptions)
    && (Task(Removing(id), 2) in s.tasks ==> id !in s.noted)
  }

  /** What is listed further on and no longer before is about to be taken out. */
  ghost predicate NothingLingers(s: State, id: SubscriptionId) {
    && (id in s.noted && id !in s.subscriptions ==> Task(Removing(id), 1) in s.tasks || Task(Detaching, 1) in s.tasks)
    && (id in s.senders && id !in s.noted ==>
          Task(Removing(id), 2) in s.tasks
          || exists t :: t in s.tasks && t.at >= 2 && t.Sweeping(PartitionOf(s.hash, id)))
  }

  /** What is subscribed is listed further on, or about to be. */
  ghost predicate NothingMissing(s: State, id: SubscriptionId) {
    id in s.subscriptions ==>
      && (id in s.noted || Task(Adding(id), 1) in s.tasks)
      && (id in s.noted ==> id in s.senders || Task(Adding(id), 1) in s.tasks || Task(Adding(id), 2) in s.tasks)
      && (Swept(s, id) ==> Task(Adding(id), 1) in s.tasks || Task(Adding(id), 2) in s.tasks)
  }

  /** A subscription that misses an index, or is about to, with nobody to put that right. */
  ghost predicate Lost(s: State, id: SubscriptionId) {
    && id in s.subscriptions && Task(Adding(id), 1) !in s.tasks && Task(Adding(id), 2) !in s.tasks
    && (id !in s.noted || id !in s.senders || Swept(s, id))
  }

  ghost predicate Inv(s: State, id: SubscriptionId) {
    OneAtATime(s.tasks) && Underway(s, id) && NothingLingers(s, id)
  }

  /** The tasks after a step: the others, and the one that moved. */
  lemma TasksAfter(s: State, i: nat, t: Task)
    requires Enabled(s, i)
    ensures var s' := Next(s, i); t in s'.tasks ==> t in s.tasks || t == s'.tasks[i]
    ensures t in s.tasks && t != s.tasks[i] ==> t in Next(s, i).tasks
    ensures Next(s, i).tasks[i] in Next(s, i).tasks
  {
    var s' := Next(s, i);
    if t in s.tasks && t != s.tasks[i] {
      var k :| 0 <= k < |s.tasks| && s.tasks[k] == t;
      assert s'.tasks[k] == t;
    }
  }

  lemma UnderwayStays(s: State, i: nat, id: SubscriptionId)
    requires Enabled(s, i) && OneAtATime(s.tasks) && Underway(s, id)
    ensures Underway(Next(s, i), id)
  {
    TasksAfter(s, i, Task(Adding(id), 1));
    TasksAfter(s, i, Task(Adding(id), 2));
    TasksAfter(s, i, Task(Removing(id), 1));
    TasksAfter(s, i, Task(Removing(id), 2));
    assert s.tasks[i] in s.tasks;
  }

  /** A detachment goes on sweeping an ID's partition until it has emptied it. */
  lemma SweepGoesOn(s: State, i: nat, id: SubscriptionId, t: Task)
    requires Enabled(s, i) && t in s.tasks && t.Sweeping(PartitionOf(s.hash, id))
    ensures
      var s' := Next(s, i);
      id !in s'.senders || (exists t' :: t' in s'.tasks && t'.at >= t.at && t'.Sweeping(PartitionOf(s.hash, id)))
  {
    TasksAfter(s, i, t);
    var s' := Next(s, i);
    if t == s.tasks[i] {
      assert s'.tasks[i] in s'.tasks && s'.tasks[i].at >= t.at;
    }
  }

  lemma NothingLingersStays(s: State, i: nat, id: SubscriptionId)
    requires Enabled(s, i) && Inv(s, id)
    ensures NothingLingers(Next(s, i), id)
  {
    var s' := Next(s, i);
    TasksAfter(s, i, Task(Removing(id), 1));
    TasksAfter(s, i, Task(Removing(id), 2));
    TasksAfter(s, i, Task(Detaching, 1));
    assert s'.tasks[i] in s'.tasks && s.tasks[i] in s.tasks;
    if id in s'.senders && id !in s'.noted && Task(Removing(id), 2) !in s'.tasks {
      if id in s.senders && id !in s.noted && Task(Removing(id), 2) !in s.tasks {
        var t :| t in s.tasks && t.at >= 2 && t.Sweeping(PartitionOf(s.hash, id));
        SweepGoesOn(s, i, id, t);
      } else if id in s.noted {
        assert s'.tasks[i] == Task(Detaching, 2);
      }
    }
  }

  lemma {:induction false} InvStays(s: State, i: nat, id: SubscriptionId)
    requires Enabled(s, i) && Inv(s, id)
    ensures Inv(Next(s, i), id)
  {
    UnderwayStays(s, i, id);
    NothingLingersStays(s, i, id);
  }

  /** A sweep begins only by emptying the subscriptions. */
  lemma SweptBefore(s: State, i: nat, id: SubscriptionId)
    requires Enabled(s, i) && Swept(Next(s, i), id)
    ensures Swept(s, id) || Next(s, i).subscriptions == {}
  {
    var s' := Next(s, i);
    var t :| t in s'.tasks && t.Sweeping(PartitionOf(s.hash, id));
    TasksAfter(s, i, t);
    assert s.tasks[i] in s.tasks;
    if t !in s.tasks && s.tasks[i].at > 0 {
      assert s.tasks[i].Sweeping(PartitionOf(s.hash, id));
    }
  }

  lemma NothingMissingStays(s: State, i: nat, id: SubscriptionId)
    requires Enabled(s, i) && Inv(s, id) && NothingMissing(s, id) && !EndsUnderSweep(s, i, id)
    ensures NothingMissing(Next(s, i), id)
  {
    var s' := Next(s, i);
    TasksAfter(s, i, Task(Adding(id), 1));
    TasksAfter(s, i, Task(Adding(id), 2));
    assert s'.tasks[i] in s'.tasks && s.tasks[i] in s.tasks;
    if Swept(s', id) {
      SweptBefore(s, i, id);
    }
    if s.tasks[i].work.Detaching? {
      assert s.tasks[i].at > 0 && id in s.senders && id !in s'.senders ==> s.tasks[i].Sweeping(PartitionOf(s.hash, id));
      assert s.tasks[i].at == 1 ==> s.tasks[i].Sweeping(PartitionOf(s.hash, id));
    }
  }

  lemma LostStays(s: State, i: nat, id: SubscriptionId)
    requires Enabled(s, i) && Lost(s, id) && id in Next(s, i).subscriptions
    ensures Lost(Next(s, i), id)
  {
    var s' := Next(s, i);
    TasksAfter(s, i, Task(Adding(id), 1));
    TasksAfter(s, i, Task(Adding(id), 2));
    assert s.tasks[i] in s.tasks;
    if Swept(s, id) {
      var t :| t in s.tasks && t.Sweeping(PartitionOf(s.hash, id));
      SweepGoesOn(s, i, id, t);
    }
  }

  /** An addition that ends under a sweep is lost at once. */
  lemma LostHere(s: State, i: nat, id: SubscriptionId)
    requires Enabled(s, i) && Inv(s, id) && EndsUnderSweep(s, i, id)
    ensures Lost(Next(s, i), id)
  {
    var s' := Next(s, i);
    TasksAfter(s, i, Task(Adding(id), 1));
    TasksAfter(s, i, Task(Adding(id), 2));
    assert Task(Adding(id), 2) in s.tasks;
    var t :| t in s.tasks && t.Sweeping(PartitionOf(s.hash, id));
    TasksAfter(s, i, t);
  }

  // ---- Whole runs ----

  /** At some step an addition of the ID ended under a sweep, and the ID has been subscribed ever since. */
  ghost predicate LostSince(states: seq<State>, steps: seq<nat>, n: nat, id: SubscriptionId)
    requires IsRun(states, steps) && n < |states|
  {
    exists m :: 0 <= m < n && EndsUnderSweep(states[m], steps[m], id)
      && forall k :: m < k <= n ==> id in states[k].subscriptions
  }

  lemma {:induction false} RunKeeps(states: seq<State>, steps: seq<nat>, n: nat, id: SubscriptionId)
    requires IsRun(states, steps) && n < |states|
    ensures Inv(states[n], id)
    ensures LostSince(states, steps, n, id) ==> Lost(states[n], id)
    ensures !LostSince(states, steps, n, id) ==> NothingMissing(states[n], id)
  {
    if n == 0 {
      assert forall t :: t in states[0].tasks ==> t.at == 0;
    } else {
      var s, i := states[n - 1], steps[n - 1];
      RunKeeps(states, steps, n - 1, id);
      InvStays(s, i, id);
      if EndsUnderSweep(s, i, id) {
        LostHere(s, i, id);
      } else if LostSince(states, steps, n - 1, id) {
        if id in states[n].subscriptions {
          LostStays(s, i, id);
        }
      } else {
        NothingMissingStays(s, i, id);
      }
    }
  }

  /** Nobody is part way through. */
  ghost predicate Quiet(s: State) {
    forall t :: t in s.tasks ==> t.at == 0 || t.Ended()
  }

  /**
   In every run, when nobody is part way through: the indexes agree on an ID exactly if
   it did not get there by an addition that ended while a detachment was under way that
   had yet to reach its partition.
   */
  lemma AgreesExactly(states: seq<State>, steps: seq<nat>, n: nat, id: SubscriptionId)
    requires IsRun(states, steps) && n < |states| && Quiet(states[n])
    ensures
      (id in states[n].subscriptions <==> id in states[n].noted) && (id in states[n].noted <==> id in states[n].senders)
      <==> !LostSince(states, steps, n, id)
  {
    RunKeeps(states, steps, n, id);
    assert !Swept(states[n], id);
  }

  /** So without a detachment the three always agree again. */
  lemma AgreesWithoutDetaching(states: seq<State>, steps: seq<nat>, n: nat)
    requires IsRun(states, steps) && n < |states| && Quiet(states[n])
    requires forall m, t :: 0 <= m <= n && t in states[m].tasks ==> !t.work.Detaching?
    ensures states[n].subscriptions == states[n].noted == states[n].senders
  {
    forall id ensures (id in states[n].subscriptions <==> id in states[n].noted) && (id in states[n].noted <==> id in states[n].senders) {
      AgreesExactly(states, steps, n, id);
    }
  }

  /** One more step at the end of a run. */
  lemma Extend(states: seq<State>, steps: seq<nat>, i: nat) returns (states': seq<State>, steps': seq<nat>)
    requires IsRun(states, steps) && Enabled(states[|steps|], i)
    ensures IsRun(states', steps') && |steps'| == |steps| + 1 && states'[|steps'|] == Next(states[|steps|], i)
    ensures states'[..|states|] == states && steps'[..|steps|] == steps && steps'[|steps|] == i
  {
    states', steps' := states + [Next(states[|steps|], i)], steps + [i];
  }

  /** An ID added while a detachment has emptied the subscriptions and nothing else. */
  lemma AddUnderSweep(hash: SubscriptionId -> nat, id: SubscriptionId) returns (states: seq<State>, steps: seq<nat>)
    ensures IsRun(states, steps) && |steps| == 4 && LostSince(states, steps, 4, id)
    ensures states[4] == State(hash, {id}, {id}, {id}, [Task(Detaching, 1), Task(Adding(id), 3)])
  {
    var s0 := State(hash, {}, {}, {}, [Task(Detaching, 0), Task(Adding(id), 0)]);
    var s1 := s0.(tasks := [Task(Detaching, 1), Task(Adding(id), 0)]);
    var s2 := s1.(subscriptions := {id}, tasks := [Task(Detaching, 1), Task(Adding(id), 1)]);
    var s3 := s2.(noted := {id}, tasks := [Task(Detaching, 1), Task(Adding(id), 2)]);
    var s4 := s3.(senders := {id}, tasks := [Task(Detaching, 1), Task(Adding(id), 3)]);
    states, steps := [s0, s1, s2, s3, s4], [0, 1, 1, 1];
    assert Enabled(s0, 0) && Next(s0, 0) == s1;
    assert Enabled(s1, 1) && Next(s1, 1) == s2;
    assert Enabled(s2, 1) && Next(s2, 1) == s3;
    assert Enabled(s3, 1) && Next(s3, 1) == s4;
    assert s3.tasks[0].Sweeping(PartitionOf(hash, id));
    assert EndsUnderSweep(states[3], steps[3], id);
  }

  /** The detachment goes on alone, up to its step `at`. */
  lemma {:induction false} SweepOn(states: seq<State>, steps: seq<nat>, id: SubscriptionId, at: nat)
    returns (states': seq<State>, steps': seq<nat>)
    requires IsRun(states, steps) && LostSince(states, steps, |steps|, id) && 2 <= at <= 2 + PARTITIONS
    requires states[|steps|].subscriptions == {id} && states[|steps|].tasks == [Task(Detaching, 1), Task(Adding(id), 3)]
    ensures IsRun(states', steps') && LostSince(states', steps', |steps'|, id)
    ensures states'[|steps'|].subscriptions == {id} && states'[|steps'|].noted == {}
    ensures states'[|steps'|].tasks == [Task(Detaching, at), Task(Adding(id), 3)]
    decreases at
  {
    if at == 2 {
      states', steps' := Extend(states, steps, 0);
      LostOn(states, steps, states', steps', id);
    } else {
      var states1, steps1 := SweepOn(states, steps, id, at - 1);
      states', steps' := Extend(states1, steps1, 0);
      LostOn(states1, steps1, states', steps', id);
    }
  }

  lemma LostOn(states: seq<State>, steps: seq<nat>, states': seq<State>, steps': seq<nat>, id: SubscriptionId)
    requires IsRun(states, steps) && IsRun(states', steps') && |steps'| == |steps| + 1
    requires states'[..|states|] == states && steps'[..|steps|] == steps
    requires LostSince(states, steps, |steps|, id) && id in states'[|steps'|].subscriptions
    ensures LostSince(states', steps', |steps'|, id)
  {
    var m :| 0 <= m < |steps| && EndsUnderSweep(states[m], steps[m], id) && forall k :: m < k <= |steps| ==> id in states[k].subscriptions;
    assert forall k :: 0 <= k < |states| ==> states'[k] == states[k];
    assert steps'[m] == steps[m];
  }

  /**
   Such a run, for any ID: when the addition and the detachment have both ended, the
   subscription is there and neither its connection nor any partition lists it.
   */
  lemma AddedWhileDetaching(hash: SubscriptionId -> nat, id: SubscriptionId) returns (states: seq<State>, steps: seq<nat>)
    ensures IsRun(states, steps) && LostSince(states, steps, |steps|, id) && Quiet(states[|steps|])
    ensures
      var s := states[|steps|];
      s.tasks == [Task(Detaching, 2 + PARTITIONS), Task(Adding(id), 3)] && id in s.subscriptions && id !in s.noted && id !in s.senders
  {
    states, steps := AddUnderSweep(hash, id);
    states, steps := SweepOn(states, steps, id, 2 + PARTITIONS);
    RunKeeps(states, steps, |steps|, id);
  }

  // ---- All operations come to an end ----

  /** The steps an operation has yet to take, at most. */
  function StepsLeft(t: Task): nat {
    if t.Ended() then 0
    else if t.work.Detaching? then (if t.at < 2 + PARTITIONS then 2 + PARTITIONS - t.at else 0)
    else 3 - t.at
  }

  function AllLeft(tasks: seq<Task>): nat {
    if tasks == [] then 0 else AllLeft(tasks[..|tasks| - 1]) + StepsLeft(tasks[|tasks| - 1])
  }

  ghost predicate InRange(tasks: seq<Task>) {
    forall t :: t in tasks && t.work.Detaching? ==> t.at <= 2 + PARTITIONS
  }

  lemma {:induction false} AllLeftFalls(tasks: seq<Task>, i: nat, t: Task)
    requires i < |tasks| && StepsLeft(t) < StepsLeft(tasks[i])
    ensures AllLeft(tasks[i := t]) < AllLeft(tasks)
    decreases |tasks|
  {
    var tasks', n := tasks[i := t], |tasks| - 1;
    if i < n {
      AllLeftFalls(tasks[..n], i, t);
      assert tasks'[..n] == tasks[..n][i := t];
    } else {
      assert tasks'[..n] == tasks[..n];
    }
  }

  /** Every step brings one operation nearer to its end and leaves the others; a refused addition ends at once and changes no index. */
  lemma StepMovesOn(s: State, i: nat)
    requires Enabled(s, i) && InRange(s.tasks)
    ensures
      var s' := Next(s, i);
      && InRange(s'.tasks) && |s'.tasks| == |s.tasks|
      && (forall j :: 0 <= j < |s.tasks| && j != i ==> s'.tasks[j] == s.tasks[j])
      && s'.tasks[i].work == s.tasks[i].work && StepsLeft(s'.tasks[i]) < StepsLeft(s.tasks[i])
      && (s.tasks[i].work.Adding? && s.tasks[i].at == 0 && s.tasks[i].work.id in s.subscriptions ==>
            s'.tasks[i].Ended() && s'.subscriptions == s.subscriptions && s'.noted == s.noted && s'.senders == s.senders)
  {
    assert s.tasks[i] in s.tasks;
    forall t | t in Next(s, i).tasks && t.work.Detaching? ensures t.at <= 2 + PARTITIONS {
      TasksAfter(s, i, t);
    }
  }

  /** As long as some operation has not ended, one of them has the lock it needs. */
  lemma SomeoneMoves(s: State) returns (i: nat)
    requires exists t :: t in s.tasks && !t.Ended()
    ensures Enabled(s, i)
  {
    var t :| t in s.tasks && !t.Ended();
    i :| 0 <= i < |s.tasks| && s.tasks[i] == t;
    if t.at < 2 && !RequestIdsFree(s.tasks) {
      var u :| u in s.tasks && u.HoldsRequestIds();
      i :| 0 <= i < |s.tasks| && s.tasks[i] == u;
    } else if t.at == 0 && !SubscriptionsFree(s.tasks) {
      var u :| u in s.tasks && u.HoldsSubscriptions();
      i :| 0 <= i < |s.tasks| && s.tasks[i] == u;
    }
  }

  /** So every run can be carried on until all operations have ended. */
  lemma {:induction false} AllCanEnd(states: seq<State>, steps: seq<nat>)
    returns (states': seq<State>, steps': seq<nat>)
    requires IsRun(states, steps) && InRange(states[|steps|].tasks)
    ensures IsRun(states', steps') && |steps| <= |steps'| && steps'[..|steps|] == steps
    ensures forall t :: t in states'[|steps'|].tasks ==> t.Ended()
    decreases AllLeft(states[|steps|].tasks)
  {
    var s := states[|steps|];
    if forall t :: t in s.tasks ==> t.Ended() {
      states', steps' := states, steps;
    } else {
      var i := SomeoneMoves(s);
      StepMovesOn(s, i);
      AllLeftFalls(s.tasks, i, Next(s, i).tasks[i]);
      assert Next(s, i).tasks == s.tasks[i := Next(s, i).tasks[i]];
      var states1, steps1 := Extend(states, steps, i);
      states', steps' := AllCanEnd(states1, steps1);
    }
  }

  lemma {:induction false} RunIsInRange(states: seq<State>, steps: seq<nat>, n: nat)
    requires IsRun(states, steps) && n < |states|
    ensures InRange(states[n].tasks)
  {
    if n > 0 {
      RunIsInRange(states, steps, n - 1);
      StepMovesOn(states[n - 1], steps[n - 1]);
    }
  }
}
