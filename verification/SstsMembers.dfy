/**
 Who keeps a track in its switching set: the requests that assigned it, told from the steps
 of a run alone, against the tables the relay keeps.
 */
module SstsMembers {
  import opened Locations
  import opened SstsGate

  /** How one track stands: in no set, or in one under a relay track ID and held by some requests. */
  datatype Standing = Out | In(setId: SetId, relay: RelayId, holders: set<RequestId>)

  /** What a step makes of one track's standing. No other track has a part in it. */
  function After(standing: Standing, step: Step, name: Name): Standing {
    match step
    case Assign(n, relay, request, setId) =>
      if n != name || (standing.In? && standing.setId != setId) then standing
      else In(setId, relay, {request} + if standing.In? then standing.holders else {})
    case Remove(n) => if n == name then Out else standing
    case Release(n, request) =>
      if n != name || standing.Out? || request !in standing.holders then standing
      else if standing.holders - {request} == {} then Out
      else standing.(holders := standing.holders - {request})
    case _ => standing
  }

  /** The standing after the first `n` steps. */
  function Told(steps: seq<Step>, n: nat, name: Name): Standing
    requires n <= |steps|
  {
    if n == 0 then Out else After(Told(steps, n - 1, name), steps[n - 1], name)
  }

  // ---- The tables ----

  type Tracks = map<Name, SetId>
  type Sets = map<SetId, map<Name, Member>>

  /** Both tables tell the same, every member is held by some request, and no set is empty. */
  ghost predicate TablesAgree(tracks: Tracks, sets: Sets) {
    && (forall n :: n in tracks ==> tracks[n] in sets && n in sets[tracks[n]])
    && (forall id :: id in sets ==> sets[id] != map[])
    && (forall id, n :: id in sets && n in sets[id] ==> Fits(tracks, id, n, sets[id][n]))
  }

  ghost predicate Fits(tracks: Tracks, id: SetId, name: Name, member: Member) {
    name in tracks && tracks[name] == id && member.holders != {}
  }

  /** How a track stands by the tables. */
  function Listed(tracks: Tracks, sets: Sets, name: Name): Standing {
    if name in tracks && tracks[name] in sets && name in sets[tracks[name]]
    then In(tracks[name], sets[tracks[name]][name].relay, sets[tracks[name]][name].holders)
    else Out
  }

  /** The sets with a member put in its place. */
  function WithMember(sets: Sets, id: SetId, name: Name, member: Member): Sets {
    sets[id := (if id in sets then sets[id] else map[])[name := member]]
  }

  lemma PutKeepsTables(tracks: Tracks, sets: Sets, id: SetId, put: Name, member: Member, tracks': Tracks, sets': Sets)
    requires TablesAgree(tracks, sets) && (put in tracks ==> tracks[put] == id) && member.holders != {}
    requires tracks' == tracks[put := id] && sets' == WithMember(sets, id, put, member)
    ensures TablesAgree(tracks', sets')
  {
    forall i | i in sets' ensures sets'[i] != map[] {
      assert if i == id then put in sets'[i] else i in sets && sets'[i] == sets[i];
    }
    forall n | n in tracks' ensures tracks'[n] in sets' && n in sets'[tracks'[n]] {
      assert n != put ==> n in tracks && n in sets[tracks[n]];
    }
    forall i: SetId, n: Name | i in sets' && n in sets'[i] ensures Fits(tracks', i, n, sets'[i][n]) {
      if n != put || i != id {
        assert i in sets && n in sets[i] && sets'[i][n] == sets[i][n];
        assert Fits(tracks, i, n, sets[i][n]);
      }
    }
  }

  lemma PutIsListed(tracks: Tracks, sets: Sets, id: SetId, put: Name, member: Member, name: Name)
    requires TablesAgree(tracks, sets)
    ensures Listed(tracks[put := id], WithMember(sets, id, put, member), name) ==
      if name == put then In(id, member.relay, member.holders) else Listed(tracks, sets, name)
  {
  }

  lemma AssignKeepsTables(s: State, step: Step, s': State, name: Name)
    requires TablesAgree(s.trackToSet, s.sets) && step.Assign?
    requires s' == Assigned(s, step.name, step.relay, step.request, step.setId)
    ensures TablesAgree(s'.trackToSet, s'.sets)
    ensures Listed(s'.trackToSet, s'.sets, name) == After(Listed(s.trackToSet, s.sets, name), step, name)
  {
    if !(step.name in s.trackToSet && s.trackToSet[step.name] != step.setId) {
      var standing := Listed(s.trackToSet, s.sets, step.name);
      var member := Member(step.relay, {step.request} + if standing.In? then standing.holders else {});
      assert step.request in member.holders;
      PutKeepsTables(s.trackToSet, s.sets, step.setId, step.name, member, s'.trackToSet, s'.sets);
      PutIsListed(s.trackToSet, s.sets, step.setId, step.name, member, name);
    }
  }

  lemma RemovedKeepsTables(s: State, gone: Name, s': State)
    requires TablesAgree(s.trackToSet, s.sets) && s' == Removed(s, gone)
    ensures TablesAgree(s'.trackToSet, s'.sets)
  {
    if gone in s.trackToSet {
      var id := s.trackToSet[gone];
      var members := s.sets[id] - {gone};
      assert s'.sets == if members == map[] then s.sets - {id} else s.sets[id := members];
      forall n | n in s'.trackToSet ensures s'.trackToSet[n] in s'.sets && n in s'.sets[s'.trackToSet[n]] {
        assert n in s.sets[s.trackToSet[n]];
        assert s.trackToSet[n] == id ==> n in members;
      }
      forall i: SetId, n: Name | i in s'.sets && n in s'.sets[i] ensures Fits(s'.trackToSet, i, n, s'.sets[i][n]) {
        assert n in s.sets[i] && s'.sets[i][n] == s.sets[i][n];
        assert Fits(s.trackToSet, i, n, s.sets[i][n]);
      }
    }
  }

  lemma RemovedIsListed(s: State, gone: Name, s': State, name: Name)
    requires TablesAgree(s.trackToSet, s.sets) && s' == Removed(s, gone)
    ensures Listed(s'.trackToSet, s'.sets, name) == if name == gone then Out else Listed(s.trackToSet, s.sets, name)
  {
    if gone in s.trackToSet && name in s.trackToSet && name != gone && s.trackToSet[name] == s.trackToSet[gone] {
      assert name in s.sets[s.trackToSet[gone]] - {gone};
    }
  }

  lemma ReleaseKeepsTables(s: State, step: Step, s': State, name: Name)
    requires TablesAgree(s.trackToSet, s.sets) && step.Release? && s' == Released(s, step.name, step.request)
    ensures TablesAgree(s'.trackToSet, s'.sets)
    ensures Listed(s'.trackToSet, s'.sets, name) == After(Listed(s.trackToSet, s.sets, name), step, name)
  {
    var standing := Listed(s.trackToSet, s.sets, step.name);
    if standing.In? && standing.holders == {step.request} {
      LastReleaseRemoves(s, step.name, step.request);
      RemovedKeepsTables(s, step.name, s');
      RemovedIsListed(s, step.name, s', name);
    } else if standing.In? && step.request in standing.holders {
      var member := Member(standing.relay, standing.holders - {step.request});
      SomeAreLeft(standing.holders, step.request);
      assert s.trackToSet[step.name := standing.setId] == s.trackToSet;
      PutKeepsTables(s.trackToSet, s.sets, standing.setId, step.name, member, s'.trackToSet, s'.sets);
      PutIsListed(s.trackToSet, s.sets, standing.setId, step.name, member, name);
    }
  }

  lemma SomeAreLeft(holders: set<RequestId>, request: RequestId)
    requires request in holders && holders != {request}
    ensures holders - {request} != {}
  {
    assert holders == (holders - {request}) + {request};
  }

  /** Without its last holder a track leaves its set just as if it had been removed. */
  lemma LastReleaseRemoves(s: State, name: Name, request: RequestId)
    requires Listed(s.trackToSet, s.sets, name).In? && Listed(s.trackToSet, s.sets, name).holders == {request}
    ensures Released(s, name, request) == Removed(s, name)
  {
    var id := s.trackToSet[name];
    var member := s.sets[id][name];
    var fewer := s.(sets := s.sets[id := s.sets[id][name := member.(holders := member.holders - {request})]]);
    assert fewer.sets[id] - {name} == s.sets[id] - {name};
    assert fewer.sets - {id} == s.sets - {id};
  }

  lemma OthersLeaveTables(s: State, step: Step, s': State)
    requires Enabled(s, step) && s' == Next(s, step) && !step.Assign? && !step.Remove? && !step.Release?
    ensures s'.trackToSet == s.trackToSet && s'.sets == s.sets
  {
  }

  /** A step changes the standing of the track it names, and of no other, as told. */
  lemma StepKeepsTables(s: State, step: Step, s': State, name: Name)
    requires TablesAgree(s.trackToSet, s.sets) && Enabled(s, step) && s' == Next(s, step)
    ensures TablesAgree(s'.trackToSet, s'.sets)
    ensures Listed(s'.trackToSet, s'.sets, name) == After(Listed(s.trackToSet, s.sets, name), step, name)
  {
    match step
    case Assign(_, _, _, _) => AssignKeepsTables(s, step, s', name);
    case Remove(gone) =>
      RemovedKeepsTables(s, gone, s');
      RemovedIsListed(s, gone, s', name);
    case Release(_, _) => ReleaseKeepsTables(s, step, s', name);
    case _ => OthersLeaveTables(s, step, s');
  }

  /** In every run the tables agree, and say of each track what its assignments, releases and removals add up to. */
  lemma {:induction false} ListedAsTold(states: seq<State>, steps: seq<Step>, n: nat, name: Name)
    requires IsRun(states, steps) && n < |states|
    ensures TablesAgree(states[n].trackToSet, states[n].sets)
    ensures Listed(states[n].trackToSet, states[n].sets, name) == Told(steps, n, name)
  {
    if n > 0 {
      ListedAsTold(states, steps, n - 1, name);
      StepKeepsTables(states[n - 1], steps[n - 1], states[n], name);
    }
  }

  /** An assignment that is not refused, what takes a track out of its set, and an update of a track in one. */
  ghost predicate MovesEpoch(standing: Standing, step: Step) {
    match step
    case Assign(_, _, _, setId) => standing.In? ==> standing.setId == setId
    case Remove(_) => standing.In?
    case Release(_, request) => standing.In? && standing.holders == {request}
    case UpdateSet(_) => standing.In?
    case _ => false
  }

  /** Tracks can be assigned, updated, released and removed at any time, whatever resolvers and controller are at. */
  lemma MembersChangeAnyTime(s: State, step: Step)
    requires step.Assign? || step.UpdateSet? || step.Release? || step.Remove?
    ensures Enabled(s, step) && Next(s, step).gates == s.gates && Next(s, step).controller == s.controller
    ensures Next(s, step).decisions == s.decisions && Next(s, step).notified == s.notified
  {
    if step.Release? {
      var listed := Listed(s.trackToSet, s.sets, step.name);
    }
  }

  /** The epoch goes up by one with each of these, and with nothing else. */
  lemma EpochMovesExactly(s: State, step: Step, s': State)
    requires TablesAgree(s.trackToSet, s.sets) && Enabled(s, step) && s' == Next(s, step)
    ensures s'.epoch == s.epoch + (
      if (step.Assign? || step.Remove? || step.Release? || step.UpdateSet?) && MovesEpoch(Listed(s.trackToSet, s.sets, step.name), step)
      then 1 else 0)
  {
    if step.Release? {
      var standing := Listed(s.trackToSet, s.sets, step.name);
      if standing.In? && standing.holders == {step.request} {
        LastReleaseRemoves(s, step.name, step.request);
      }
    }
  }

  // ---- Holding a track ----

  predicate Frees(step: Step, name: Name, request: RequestId) {
    step == Remove(name) || step == Release(name, request)
  }

  /** Step `k` assigned the track for the request, and was not refused for another set the track was in. */
  ghost predicate Assigns(steps: seq<Step>, k: nat, name: Name, request: RequestId)
    requires k < |steps|
  {
    && steps[k].Assign? && steps[k].name == name && steps[k].request == request
    && (Told(steps, k, name).In? ==> Told(steps, k, name).setId == steps[k].setId)
  }

  /** And since then the request was not released, nor the track removed. */
  ghost predicate HoldsSince(steps: seq<Step>, k: nat, n: nat, name: Name, request: RequestId)
    requires k < n <= |steps|
  {
    Assigns(steps, k, name, request) && forall j :: k < j < n ==> !Frees(steps[j], name, request)
  }

  ghost predicate Holds(steps: seq<Step>, n: nat, name: Name, request: RequestId)
    requires n <= |steps|
  {
    exists k :: 0 <= k < n && HoldsSince(steps, k, n, name, request)
  }

  ghost predicate IsHolder(standing: Standing, request: RequestId) {
    standing.In? && request in standing.holders
  }

  lemma HoldsOneMore(steps: seq<Step>, n: nat, name: Name, request: RequestId)
    requires 0 < n <= |steps|
    ensures Holds(steps, n, name, request) <==>
      Assigns(steps, n - 1, name, request) || (Holds(steps, n - 1, name, request) && !Frees(steps[n - 1], name, request))
  {
    if Holds(steps, n - 1, name, request) && !Frees(steps[n - 1], name, request) {
      var k :| 0 <= k < n - 1 && HoldsSince(steps, k, n - 1, name, request);
      assert HoldsSince(steps, k, n, name, request);
    }
    if Assigns(steps, n - 1, name, request) {
      assert HoldsSince(steps, n - 1, n, name, request);
    }
    if Holds(steps, n, name, request) && !Assigns(steps, n - 1, name, request) {
      var k :| 0 <= k < n && HoldsSince(steps, k, n, name, request);
      assert k < n - 1 && HoldsSince(steps, k, n - 1, name, request);
      assert !Frees(steps[n - 1], name, request);
    }
  }

  lemma {:induction false} HolderExactly(steps: seq<Step>, n: nat, name: Name, request: RequestId)
    requires n <= |steps|
    ensures IsHolder(Told(steps, n, name), request) <==> Holds(steps, n, name, request)
  {
    if n > 0 {
      HolderExactly(steps, n - 1, name, request);
      HoldsOneMore(steps, n, name, request);
    }
  }

  lemma {:induction false} ToldIsHeld(steps: seq<Step>, n: nat, name: Name)
    requires n <= |steps|
    ensures Told(steps, n, name).In? ==> Told(steps, n, name).holders != {}
  {
    if n > 0 {
      ToldIsHeld(steps, n - 1, name);
    }
  }

  /**
   In every run a track is in a set exactly while some request that assigned it was neither
   released nor removed with it; these requests are its holders.
   */
  lemma InASetExactly(states: seq<State>, steps: seq<Step>, n: nat, name: Name)
    requires IsRun(states, steps) && n < |states|
    ensures SetOf(states[n], name).Some? <==> exists request :: Holds(steps, n, name, request)
    ensures SetOf(states[n], name).Some? ==>
      var setId := SetOf(states[n], name).value;
      && name in states[n].sets[setId]
      && forall request :: request in states[n].sets[setId][name].holders <==> Holds(steps, n, name, request)
  {
    ListedAsTold(states, steps, n, name);
    ToldIsHeld(steps, n, name);
    forall request ensures IsHolder(Told(steps, n, name), request) <==> Holds(steps, n, name, request) {
      HolderExactly(steps, n, name, request);
    }
    if Told(steps, n, name).In? {
      var request :| request in Told(steps, n, name).holders;
      assert IsHolder(Told(steps, n, name), request);
    }
  }
}
