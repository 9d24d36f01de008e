/**
 The room's runs told from their steps: who has subscribed, joined and handled what; and
 that handling what was sent always comes to an end.
 */
module SignallingRuns {
  import opened Locations
  import opened Signalling

  // ---- Told from the steps ----

  /** What the first `n` steps made of session `i`, apart from what it learned. */
  ghost predicate AsTold(rooms: seq<Room>, steps: seq<Step>, n: nat, i: nat)
    requires n <= |steps| < |rooms| && i < |rooms[0].sessions| && i < |rooms[n].sessions|
  {
    var first, s := rooms[0].sessions[i], rooms[n].sessions[i];
    && s.username == first.username && s.token == first.token
    && (s.subscribedAt.Some? <==> Subscribe(i) in steps[..n])
    && (s.joinedAt.Some? <==> SendJoin(i) in steps[..n])
    && (forall k :: k in s.handled <==> Handle(i, k) in steps[..n])
    && (s.subscribedAt.Some? ==> exists m :: 0 <= m < n && steps[m] == Subscribe(i) && s.subscribedAt.value == |rooms[m].log|)
  }

  lemma StepTells(r: Room, step: Step, r': Room, i: nat)
    requires Enabled(r, step) && r' == Next(r, step) && i < |r.sessions|
    ensures |r'.sessions| == |r.sessions|
    ensures
      var s, s' := r.sessions[i], r'.sessions[i];
      && s'.username == s.username && s'.token == s.token
      && s'.subscribedAt == (if step == Subscribe(i) then Some(|r.log|) else s.subscribedAt)
      && s'.joinedAt == (if step == SendJoin(i) then Some(|r.log|) else s.joinedAt)
      && s'.handled == (if step.Handle? && step.i == i then s.handled + {step.k} else s.handled)
  {
  }

  /** In every run each session has subscribed, joined and handled exactly what the steps say. */
  lemma {:induction false} SessionsAsTold(rooms: seq<Room>, steps: seq<Step>, n: nat, i: nat)
    requires IsRun(rooms, steps) && n < |rooms| && i < |rooms[0].sessions|
    ensures |rooms[n].sessions| == |rooms[0].sessions| && AsTold(rooms, steps, n, i)
  {
    if n > 0 {
      SessionsAsTold(rooms, steps, n - 1, i);
      StepTells(rooms[n - 1], steps[n - 1], rooms[n], i);
      assert steps[..n] == steps[..n - 1] + [steps[n - 1]];
      if steps[n - 1] == Subscribe(i) {
        assert rooms[n].sessions[i].subscribedAt.value == |rooms[n - 1].log|;
      }
    }
  }

  /** A signal reached the session: it was sent after the session subscribed. */
  ghost predicate Reached(rooms: seq<Room>, steps: seq<Step>, n: nat, i: nat, k: nat)
    requires n <= |steps| < |rooms|
  {
    exists m :: 0 <= m < n && steps[m] == Subscribe(i) && |rooms[m].log| <= k < |rooms[n].log|
  }

  /** A session can handle exactly the signals that reached it and that it has not handled yet. */
  lemma CanHandleExactly(rooms: seq<Room>, steps: seq<Step>, n: nat, i: nat, k: nat)
    requires IsRun(rooms, steps) && n < |rooms| && i < |rooms[0].sessions|
    ensures Enabled(rooms[n], Handle(i, k)) <==> Reached(rooms, steps, n, i, k) && Handle(i, k) !in steps[..n]
  {
    SessionsAsTold(rooms, steps, n, i);
    forall m | 0 <= m < n && steps[m] == Subscribe(i)
      ensures rooms[n].sessions[i].subscribedAt == Some(|rooms[m].log|)
    {
      SubscribesOnce(rooms, steps, m, n, i);
    }
  }

  lemma {:induction false} SubscribesOnce(rooms: seq<Room>, steps: seq<Step>, m: nat, n: nat, i: nat)
    requires IsRun(rooms, steps) && m < n < |rooms| && i < |rooms[0].sessions| && steps[m] == Subscribe(i)
    ensures SubscribedFrom(rooms[n], i, |rooms[m].log|)
    decreases n
  {
    SessionsAsTold(rooms, steps, n - 1, i);
    if m < n - 1 {
      SubscribesOnce(rooms, steps, m, n - 1, i);
      StaysSubscribed(rooms[n - 1], steps[n - 1], rooms[n], i, |rooms[m].log|);
    } else {
      StepTells(rooms[n - 1], steps[n - 1], rooms[n], i);
    }
  }

  ghost predicate SubscribedFrom(r: Room, i: nat, place: nat) {
    i < |r.sessions| && r.sessions[i].subscribedAt == Some(place)
  }

  lemma StaysSubscribed(r: Room, step: Step, r': Room, i: nat, place: nat)
    requires Enabled(r, step) && r' == Next(r, step) && SubscribedFrom(r, i, place)
    ensures SubscribedFrom(r', i, place)
  {
    StepTells(r, step, r', i);
  }

  // ---- Handling comes to an end ----

  /** Nothing but handling signals leads from one room to the other. */
  ghost predicate Settles(rooms: seq<Room>, steps: seq<Step>) {
    && |rooms| == |steps| + 1
    && forall n :: 0 <= n < |steps| ==>
         steps[n].Handle? && Enabled(rooms[n], steps[n]) && rooms[n + 1] == Next(rooms[n], steps[n])
  }

  /** The signal reached the session and is still to be handled. */
  ghost predicate IsOpen(r: Room, i: nat, k: nat) {
    && i < |r.sessions| && k < |r.log| && r.sessions[i].subscribedAt.Some? && r.sessions[i].subscribedAt.value <= k
    && k !in r.sessions[i].handled
  }

  /** Such signals, by session and place: the joins, or the others. */
  ghost function Open(r: Room, joins: bool): set<(nat, nat)> {
    set i: nat, k: nat | i < |r.sessions| && k < |r.log| && IsOpen(r, i, k) && Parse(r.log[k]).Join? == joins :: (i, k)
  }

  /** Only a join leads to another signal, which is none. */
  lemma HandlingSends(r: Room, i: nat, k: nat, r': Room)
    requires Inv(r) && Enabled(r, Handle(i, k)) && r' == Next(r, Handle(i, k))
    ensures |r.log| <= |r'.log| && r'.log[..|r.log|] == r.log
    ensures !Parse(r.log[k]).Join? ==> r'.log == r.log
    ensures forall m :: |r.log| <= m < |r'.log| ==> !Parse(r'.log[m]).Join?
  {
    var s := r.sessions[i];
    assert SessionHolds(r, s) && EntryHolds(r, k);
    if Parse(r.log[k]).Join? {
      var sender, token := Parse(r.log[k]).sender, Parse(r.log[k]).token;
      SignalRoundTrip(Welcome(s.username, sender, token));
      SignalRoundTrip(DuplicateUser(s.username, sender, token));
    }
  }

  lemma HandlingCloses(r: Room, i: nat, k: nat, r': Room, j: nat, m: nat)
    requires Enabled(r, Handle(i, k)) && r' == Next(r, Handle(i, k)) && m < |r.log| <= |r'.log|
    ensures IsOpen(r', j, m) <==> IsOpen(r, j, m) && !(j == i && m == k)
  {
    if j < |r.sessions| {
      StepTells(r, Handle(i, k), r', j);
    }
  }

  /** Handling a signal leaves one less of its kind. */
  lemma HandlingLeavesLess(r: Room, i: nat, k: nat, r': Room, joins: bool)
    requires Inv(r) && Enabled(r, Handle(i, k)) && r' == Next(r, Handle(i, k)) && (joins || !Parse(r.log[k]).Join?)
    ensures Open(r', joins) == Open(r, joins) - {(i, k)}
  {
    HandlingSends(r, i, k, r');
    forall j: nat, m: nat ensures (j, m) in Open(r', joins) <==> (j, m) in Open(r, joins) - {(i, k)} {
      if m < |r.log| {
        HandlingCloses(r, i, k, r', j, m);
        assert r'.log[m] == r'.log[..|r.log|][m] == r.log[m];
      }
    }
  }

  lemma SettleOneFirst(r: Room, i: nat, k: nat, rooms: seq<Room>, steps: seq<Step>)
    requires Enabled(r, Handle(i, k)) && Settles(rooms, steps) && rooms[0] == Next(r, Handle(i, k))
    ensures Settles([r] + rooms, [Handle(i, k)] + steps)
  {
    var rooms', steps' := [r] + rooms, [Handle(i, k)] + steps;
    forall n | 0 < n < |steps'|
      ensures steps'[n].Handle? && Enabled(rooms'[n], steps'[n]) && rooms'[n + 1] == Next(rooms'[n], steps'[n])
    {
      assert steps'[n] == steps[n - 1] && rooms'[n] == rooms[n - 1] && rooms'[n + 1] == rooms[n];
    }
  }

  lemma {:induction false} Settle(r: Room, joins: bool) returns (rooms: seq<Room>, steps: seq<Step>)
    requires Inv(r) && (!joins ==> Open(r, true) == {})
    ensures Settles(rooms, steps) && rooms[0] == r
    ensures Inv(rooms[|steps|]) && Open(rooms[|steps|], joins) == {} && Open(rooms[|steps|], true) == {}
    decreases Open(r, joins)
  {
    if Open(r, joins) == {} {
      return [r], [];
    }
    var i: nat, k: nat :| (i, k) in Open(r, joins);
    var r' := Next(r, Handle(i, k));
    HandlingLeavesLess(r, i, k, r', joins);
    HandlingLeavesLess(r, i, k, r', true);
    HandleKeepsInv(r, i, k);
    rooms, steps := Settle(r', joins);
    SettleOneFirst(r, i, k, rooms, steps);
    rooms, steps := [r] + rooms, [Handle(i, k)] + steps;
  }

  lemma SettleTogether(rooms1: seq<Room>, steps1: seq<Step>, rooms2: seq<Room>, steps2: seq<Step>)
    requires Settles(rooms1, steps1) && Settles(rooms2, steps2) && rooms2[0] == rooms1[|steps1|]
    ensures Settles(rooms1 + rooms2[1..], steps1 + steps2)
    ensures (rooms1 + rooms2[1..])[|steps1 + steps2|] == rooms2[|steps2|]
  {
    var rooms, steps := rooms1 + rooms2[1..], steps1 + steps2;
    assert forall n :: 0 <= n <= |steps2| ==> rooms[|steps1| + n] == rooms2[n];
    forall n | 0 <= n < |steps|
      ensures steps[n].Handle? && Enabled(rooms[n], steps[n]) && rooms[n + 1] == Next(rooms[n], steps[n])
    {
      if n < |steps1| {
        assert steps[n] == steps1[n] && rooms[n] == rooms1[n] && rooms[n + 1] == rooms1[n + 1];
      } else {
        var m := n - |steps1|;
        assert steps[n] == steps2[m] && rooms[n] == rooms2[m] && rooms[n + 1] == rooms2[m + 1];
      }
    }
  }

  lemma NothingOpenIsQuiet(r: Room)
    requires Open(r, true) == {} && Open(r, false) == {}
    ensures Quiet(r)
  {
    forall i, k | 0 <= i < |r.sessions| && r.sessions[i].subscribedAt.Some? && r.sessions[i].subscribedAt.value <= k < |r.log|
      ensures k in r.sessions[i].handled
    {
      assert (i, k) !in Open(r, Parse(r.log[k]).Join?);
    }
  }

  /** From every room of a run handling alone leads to one in which everything that reached a session has been handled. */
  lemma QuietCanBeReached(rooms: seq<Room>, steps: seq<Step>, n: nat) returns (rooms': seq<Room>, steps': seq<Step>)
    requires IsRun(rooms, steps) && n < |rooms|
    ensures Settles(rooms', steps') && rooms'[0] == rooms[n] && Quiet(rooms'[|steps'|])
  {
    RunKeepsInv(rooms, steps, n);
    var rooms1, steps1 := Settle(rooms[n], true);
    var rooms2, steps2 := Settle(rooms1[|steps1|], false);
    SettleTogether(rooms1, steps1, rooms2, steps2);
    NothingOpenIsQuiet(rooms2[|steps2|]);
    rooms', steps' := rooms1 + rooms2[1..], steps1 + steps2;
  }
}
