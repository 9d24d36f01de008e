/**
 Which subscriptions of the client a received object belongs to. A publisher may send a
 copy for every subscription, under one alias or several; each subscription takes each
 Location once, live or from a fill.
 */
module Routing {
  import opened Locations
  import opened Sequences

  /** From `start` on, up to and including `end` where there is one. */
  datatype Window = Window(start: Location, end: Option<Location>) {
    predicate Contains(location: Location) {
      start.AtMost(location) && (end.Some? ==> location.AtMost(end.value))
    }
  }

  datatype Subscription = Subscription(requestId: nat, alias: nat, window: Window, seen: set<Location>) {
    function Taking(location: Location): Subscription {
      this.(seen := seen + {location})
    }
  }

  datatype Routed = Routed(owners: seq<nat>, duplicates: nat)

  // ---- What a delivery does ----

  /** The places below `n` that pass, in ascending order. */
  function Picked(n: nat, passes: nat -> bool): (picked: seq<nat>)
    ensures forall i: nat :: i in picked <==> i < n && passes(i)
    ensures forall k :: 0 <= k < |picked| ==> picked[k] < n
    ensures forall j, k :: 0 <= j < k < |picked| ==> picked[j] < picked[k]
  {
    if n == 0 then []
    else Picked(n - 1, passes) + if passes(n - 1) then [n - 1] else []
  }

  function Holders(subscriptions: seq<Subscription>, alias: nat): (places: seq<nat>)
    ensures Ascending(places, |subscriptions|)
    ensures forall i: nat :: i in places <==> i < |subscriptions| && subscriptions[i].alias == alias
  {
    Picked(|subscriptions|, (i: nat) => i < |subscriptions| && subscriptions[i].alias == alias)
  }

  function Covering(subscriptions: seq<Subscription>, alias: nat, location: Location): (places: seq<nat>)
    ensures Ascending(places, |subscriptions|)
    ensures forall i: nat :: i in places <==>
      i < |subscriptions| && subscriptions[i].alias == alias && subscriptions[i].window.Contains(location)
    ensures places == [] <==> !Covered(subscriptions, alias, location)
  {
    var places := Picked(|subscriptions|, (i: nat) =>
      i < |subscriptions| && subscriptions[i].alias == alias && subscriptions[i].window.Contains(location));
    assert places != [] ==> places[0] in places;
    places
  }

  function BelongsTo(subscriptions: seq<Subscription>, alias: nat, location: Location): (places: seq<nat>)
    ensures Ascending(places, |subscriptions|)
    ensures forall i: nat :: i in places <==>
      && i < |subscriptions| && subscriptions[i].alias == alias
      && (Reaches(subscriptions[i].window, location)
          || forall j :: 0 <= j < |subscriptions| && subscriptions[j].alias == alias ==> !Reaches(subscriptions[j].window, location))
  {
    var covering := Covering(subscriptions, alias, location);
    if covering == [] then Holders(subscriptions, alias) else covering
  }

  /** The Location is neither before the window's start nor after its end. */
  ghost predicate Reaches(window: Window, location: Location) {
    !location.Before(window.start) && (window.end.Some? ==> !window.end.value.Before(location))
  }

  /** Some subscription that holds the alias covers the Location. */
  ghost predicate Covered(subscriptions: seq<Subscription>, alias: nat, location: Location) {
    exists i :: 0 <= i < |subscriptions| && subscriptions[i].alias == alias && subscriptions[i].window.Contains(location)
  }

  predicate Places(places: seq<nat>, n: nat) {
    forall k :: 0 <= k < |places| ==> places[k] < n
  }

  ghost predicate Ascending(places: seq<nat>, n: nat) {
    && Places(places, n)
    && forall j, k :: 0 <= j < k < |places| ==> places[j] < places[k]
  }

  /** The owner of a fill: the subscription its request belongs to, if there is one. */
  function FillOwner(subscriptions: seq<Subscription>, updates: map<nat, nat>, requestId: nat): (places: seq<nat>)
    ensures Ascending(places, |subscriptions|) && |places| <= 1
    ensures forall i: nat :: i in places ==>
      subscriptions[i].requestId == if requestId in updates then updates[requestId] else requestId
    ensures places == [] <==> forall s :: s in subscriptions ==>
      s.requestId != if requestId in updates then updates[requestId] else requestId
  {
    var owner := if requestId in updates then updates[requestId] else requestId;
    Find(subscriptions, owner, 0)
  }

  function Find(subscriptions: seq<Subscription>, requestId: nat, from: nat): (places: seq<nat>)
    requires from <= |subscriptions|
    ensures Places(places, |subscriptions|)
    ensures |places| <= 1 && forall i: nat :: i in places ==> from <= i < |subscriptions| && subscriptions[i].requestId == requestId
    ensures places == [] <==> forall s :: s in subscriptions[from..] ==> s.requestId != requestId
    decreases |subscriptions| - from
  {
    if from == |subscriptions| then []
    else if subscriptions[from].requestId == requestId then [from]
    else
      assert subscriptions[from..] == [subscriptions[from]] + subscriptions[from + 1..];
      Find(subscriptions, requestId, from + 1)
  }

  /** Those of the places that do not have the Location yet, by request ID. */
  function Owners(subscriptions: seq<Subscription>, places: seq<nat>, location: Location): seq<nat>
    requires Places(places, |subscriptions|)
  {
    if places == [] then []
    else
      var last := subscriptions[places[|places| - 1]];
      Owners(subscriptions, places[..|places| - 1], location) + if location in last.seen then [] else [last.requestId]
  }

  function Marked(subscriptions: seq<Subscription>, places: seq<nat>, location: Location): seq<Subscription> {
    seq(|subscriptions|, i requires 0 <= i < |subscriptions| =>
      if i in places then subscriptions[i].Taking(location) else subscriptions[i])
  }

  /** Each place takes the Location, those that lacked it as owners, the others as duplicates. */
  ghost predicate Handed(before: seq<Subscription>, after: seq<Subscription>, places: seq<nat>, location: Location, route: Routed)
    requires Places(places, |before|)
  {
    && after == Marked(before, places, location)
    && route.owners == Owners(before, places, location)
    && |route.owners| + route.duplicates == |places|
  }

  lemma OneMorePlace(was: seq<Subscription>, places: seq<nat>, location: Location, k: nat)
    requires Ascending(places, |was|) && k < |places|
    ensures
      var i, marked := places[k], Marked(was, places[..k], location);
      && marked[i] == was[i]
      && Marked(was, places[..k + 1], location) == marked[i := marked[i].Taking(location)]
      && Owners(was, places[..k + 1], location)
         == Owners(was, places[..k], location) + if location in was[i].seen then [] else [was[i].requestId]
  {
    var front, i := places[..k], places[k];
    assert places[..k + 1] == front + [i] && (front + [i])[..k] == front;
    assert forall j :: 0 <= j < k ==> front[j] == places[j];
    assert i !in front;
    assert forall j :: j in front + [i] <==> j in front || j == i;
  }

  /** The subscriptions and the route after one more place. */
  function HandOne(now: seq<Subscription>, route: Routed, i: nat, location: Location): (seq<Subscription>, Routed)
    requires i < |now|
  {
    (now[i := now[i].Taking(location)],
     if location in now[i].seen then Routed(route.owners, route.duplicates + 1)
     else Routed(route.owners + [now[i].requestId], route.duplicates))
  }

  /** What handing to one more place adds. */
  lemma HandsOne(was: seq<Subscription>, now: seq<Subscription>, places: seq<nat>, location: Location, k: nat, route: Routed)
    requires Ascending(places, |was|) && k < |places| && Handed(was, now, places[..k], location, route)
    ensures places[k] < |now|
    ensures
      var (now', route') := HandOne(now, route, places[k], location);
      Handed(was, now', places[..k + 1], location, route')
  {
    OneMorePlace(was, places, location, k);
  }

  class Router {
    var subscriptions: seq<Subscription>
    var updates: map<nat, nat>

    constructor ()
      ensures subscriptions == [] && updates == map[]
    {
      subscriptions, updates := [], map[];
    }

    method Add(requestId: nat, alias: nat, window: Window)
      modifies this
      ensures subscriptions == old(subscriptions) + [Subscription(requestId, alias, window, {})] && updates == old(updates)
    {
      subscriptions := subscriptions + [Subscription(requestId, alias, window, {})];
    }

    method AddUpdate(updateId: nat, requestId: nat)
      modifies this
      ensures updates == old(updates)[updateId := requestId] && subscriptions == old(subscriptions)
    {
      updates := updates[updateId := requestId];
    }

    method Hand(places: seq<nat>, location: Location) returns (route: Routed)
      requires Ascending(places, |subscriptions|)
      modifies this`subscriptions
      ensures Handed(old(subscriptions), subscriptions, places, location, route)
    {
      ghost var was := subscriptions;
      route := Routed([], 0);
      var k := 0;
      while k < |places|
        invariant 0 <= k <= |places| && Handed(was, subscriptions, places[..k], location, route)
      {
        HandsOne(was, subscriptions, places, location, k, route);
        var handed := HandOne(subscriptions, route, places[k], location);
        subscriptions, route := handed.0, handed.1;
        k := k + 1;
      }
      assert places[..k] == places;
    }

    method Route(alias: nat, location: Location) returns (route: Routed)
      modifies this`subscriptions
      ensures Handed(old(subscriptions), subscriptions, BelongsTo(old(subscriptions), alias, location), location, route)
    {
      route := Hand(BelongsTo(subscriptions, alias, location), location);
    }

    method RouteFill(requestId: nat, location: Location) returns (route: Routed)
      modifies this`subscriptions
      ensures Handed(old(subscriptions), subscriptions, FillOwner(old(subscriptions), updates, requestId), location, route)
    {
      route := Hand(FillOwner(subscriptions, updates, requestId), location);
    }
  }

  // ---- Whole runs ----

  datatype Take = Take(requestId: nat, location: Location)

  /** A router and everything its subscriptions took, in order. */
  datatype State = State(subscriptions: seq<Subscription>, updates: map<nat, nat>, taken: seq<Take>)

  datatype Event =
    | Subscribed(requestId: nat, alias: nat, window: Window)
    | Updated(updateId: nat, requestId: nat)
    | Live(alias: nat, location: Location)
    | Filled(requestId: nat, location: Location)

  /** Request IDs are not used twice. */
  ghost predicate Allowed(s: State, event: Event) {
    event.Subscribed? ==> forall sub :: sub in s.subscriptions ==> sub.requestId != event.requestId
  }

  function Takes(owners: seq<nat>, location: Location): (takes: seq<Take>)
    ensures |takes| == |owners| && forall i :: 0 <= i < |owners| ==> takes[i] == Take(owners[i], location)
  {
    seq(|owners|, i requires 0 <= i < |owners| => Take(owners[i], location))
  }

  function HandedTo(s: State, places: seq<nat>, location: Location): State
    requires Places(places, |s.subscriptions|)
  {
    State(Marked(s.subscriptions, places, location), s.updates, s.taken + Takes(Owners(s.subscriptions, places, location), location))
  }

  function Next(s: State, event: Event): State {
    match event
    case Subscribed(requestId, alias, window) =>
      s.(subscriptions := s.subscriptions + [Subscription(requestId, alias, window, {})])
    case Updated(updateId, requestId) => s.(updates := s.updates[updateId := requestId])
    case Live(alias, location) => HandedTo(s, BelongsTo(s.subscriptions, alias, location), location)
    case Filled(requestId, location) => HandedTo(s, FillOwner(s.subscriptions, s.updates, requestId), location)
  }

  ghost predicate IsRun(states: seq<State>, events: seq<Event>) {
    && |states| == |events| + 1 && states[0] == State([], map[], [])
    && forall n :: 0 <= n < |events| ==> Allowed(states[n], events[n]) && states[n + 1] == Next(states[n], events[n])
  }

  ghost predicate UniqueIds(subscriptions: seq<Subscription>) {
    forall i, j :: 0 <= i < j < |subscriptions| ==> subscriptions[i].requestId != subscriptions[j].requestId
  }

  /** The subscription of this request has seen the Location. */
  ghost predicate Has(subscriptions: seq<Subscription>, take: Take) {
    exists i :: 0 <= i < |subscriptions| && subscriptions[i].requestId == take.requestId && take.location in subscriptions[i].seen
  }

  ghost predicate Inv(s: State) {
    && UniqueIds(s.subscriptions) && Distinct(s.taken)
    && forall take :: take in s.taken <==> Has(s.subscriptions, take)
  }

  ghost predicate Lacks(subscriptions: seq<Subscription>, places: seq<nat>, location: Location, r: nat)
    requires Places(places, |subscriptions|)
  {
    exists i: nat :: i in places && subscriptions[i].requestId == r && location !in subscriptions[i].seen
  }

  lemma LacksMore(subscriptions: seq<Subscription>, front: seq<nat>, last: nat, location: Location, r: nat)
    requires Places(front + [last], |subscriptions|)
    ensures Places(front, |subscriptions|) && last < |subscriptions|
    ensures Lacks(subscriptions, front + [last], location, r) <==>
      Lacks(subscriptions, front, location, r) || (subscriptions[last].requestId == r && location !in subscriptions[last].seen)
  {
    var places := front + [last];
    assert places[|front|] == last && forall k :: 0 <= k < |front| ==> places[k] == front[k];
    if i: nat :| i in places && subscriptions[i].requestId == r && location !in subscriptions[i].seen {
      assert i in front || i == last;
    }
  }

  lemma LackerIsEarlier(subscriptions: seq<Subscription>, front: seq<nat>, last: nat, location: Location)
    requires Ascending(front + [last], |subscriptions|) && UniqueIds(subscriptions)
    ensures Ascending(front, |subscriptions|) && last < |subscriptions|
    ensures !Lacks(subscriptions, front, location, subscriptions[last].requestId)
  {
    var places := front + [last];
    assert places[|front|] == last && forall k :: 0 <= k < |front| ==> places[k] == front[k];
    forall i: nat | i in front ensures i < last {
      var k :| 0 <= k < |front| && front[k] == i;
      assert places[k] < places[|front|];
    }
  }

  /** The owners are the places that lacked the Location, each once. */
  lemma {:induction false} OwnersAre(subscriptions: seq<Subscription>, places: seq<nat>, location: Location)
    requires Ascending(places, |subscriptions|) && UniqueIds(subscriptions)
    ensures
      var owners := Owners(subscriptions, places, location);
      && (forall r: nat :: r in owners <==> Lacks(subscriptions, places, location, r))
      && Distinct(owners)
  {
    if places != [] {
      var front, last := places[..|places| - 1], places[|places| - 1];
      assert places == front + [last];
      LackerIsEarlier(subscriptions, front, last, location);
      OwnersAre(subscriptions, front, location);
      forall r: nat ensures r in Owners(subscriptions, places, location) <==> Lacks(subscriptions, places, location, r) {
        LacksMore(subscriptions, front, last, location, r);
      }
    }
  }

  lemma HandedKeepsInv(s: State, places: seq<nat>, location: Location)
    requires Inv(s) && Ascending(places, |s.subscriptions|)
    ensures Inv(HandedTo(s, places, location))
  {
    var s' := HandedTo(s, places, location);
    var owners := Owners(s.subscriptions, places, location);
    var takes := Takes(owners, location);
    TakesAreNew(s, places, location);
    DistinctTogether(s.taken, takes);
    forall take ensures take in s'.taken <==> Has(s'.subscriptions, take) {
      HasAfter(s, places, location, take);
    }
  }

  lemma TakesAreNew(s: State, places: seq<nat>, location: Location)
    requires Inv(s) && Ascending(places, |s.subscriptions|)
    ensures
      var takes := Takes(Owners(s.subscriptions, places, location), location);
      Distinct(takes) && forall take :: take in takes ==> take !in s.taken
  {
    var owners := Owners(s.subscriptions, places, location);
    var takes := Takes(owners, location);
    OwnersAre(s.subscriptions, places, location);
    forall take | take in takes ensures take !in s.taken {
      var k :| 0 <= k < |owners| && takes[k] == take;
      assert owners[k] in owners;
      var i: nat :| i in places && s.subscriptions[i].requestId == owners[k] && location !in s.subscriptions[i].seen;
      forall j | 0 <= j < |s.subscriptions| && s.subscriptions[j].requestId == owners[k] ensures j == i {}
    }
  }

  lemma HasAfter(s: State, places: seq<nat>, location: Location, take: Take)
    requires Inv(s) && Ascending(places, |s.subscriptions|)
    ensures Has(Marked(s.subscriptions, places, location), take) <==>
      Has(s.subscriptions, take) || (take.location == location && take.requestId in Owners(s.subscriptions, places, location))
  {
    OwnersAre(s.subscriptions, places, location);
    var after := Marked(s.subscriptions, places, location);
    if i :| 0 <= i < |s.subscriptions| && s.subscriptions[i].requestId == take.requestId && take.location in s.subscriptions[i].seen {
      assert after[i].requestId == take.requestId;
    }
    if i: nat :| i in places && s.subscriptions[i].requestId == take.requestId && location !in s.subscriptions[i].seen {
      assert after[i].requestId == take.requestId && location in after[i].seen;
    }
  }

  lemma SubscribedKeepsInv(s: State, requestId: nat, alias: nat, window: Window)
    requires Inv(s) && Allowed(s, Subscribed(requestId, alias, window))
    ensures Inv(Next(s, Subscribed(requestId, alias, window)))
  {
    var subs, subs' := s.subscriptions, Next(s, Subscribed(requestId, alias, window)).subscriptions;
    assert forall i :: 0 <= i < |subs| ==> subs'[i] == subs[i] && subs[i] in subs;
    forall take ensures Has(subs, take) <==> Has(subs', take) {
      if i :| 0 <= i < |subs| && subs[i].requestId == take.requestId && take.location in subs[i].seen {
        assert subs'[i].requestId == take.requestId;
      }
    }
  }

  lemma {:induction false} RunKeepsInv(states: seq<State>, events: seq<Event>, n: nat)
    requires IsRun(states, events) && n < |states|
    ensures Inv(states[n])
  {
    if n > 0 {
      var s, event := states[n - 1], events[n - 1];
      RunKeepsInv(states, events, n - 1);
      match event
      case Subscribed(requestId, alias, window) =>
        SubscribedKeepsInv(s, requestId, alias, window);
      case Updated(_, _) =>
      case Live(alias, location) => HandedKeepsInv(s, BelongsTo(s.subscriptions, alias, location), location);
      case Filled(requestId, location) => HandedKeepsInv(s, FillOwner(s.subscriptions, s.updates, requestId), location);
    }
  }

  // ---- Told from the events ----

  /** The subscriptions the first `n` events made, in order, without what they have seen. */
  function ToldSubscriptions(events: seq<Event>, n: nat): seq<Subscription>
    requires n <= |events|
  {
    if n == 0 then []
    else
      match events[n - 1]
      case Subscribed(requestId, alias, window) => ToldSubscriptions(events, n - 1) + [Subscription(requestId, alias, window, {})]
      case _ => ToldSubscriptions(events, n - 1)
  }

  /** The last update that used the ID, if there is one. */
  ghost predicate IsUpdateOf(events: seq<Event>, n: nat, updateId: nat, requestId: nat)
    requires n <= |events|
  {
    exists k :: 0 <= k < n && events[k] == Updated(updateId, requestId)
      && forall j :: k < j < n && events[j].Updated? ==> events[j].updateId != updateId
  }

  lemma {:induction false} ToldIsThere(events: seq<Event>, n: nat, k: nat)
    requires k < n <= |events| && events[k].Subscribed?
    ensures Subscription(events[k].requestId, events[k].alias, events[k].window, {}) in ToldSubscriptions(events, n)
    decreases n
  {
    if k < n - 1 {
      ToldIsThere(events, n - 1, k);
    }
  }

  lemma {:induction false} AsToldSoFar(states: seq<State>, events: seq<Event>, n: nat)
    requires IsRun(states, events) && n < |states|
    ensures |states[n].subscriptions| == |ToldSubscriptions(events, n)|
    ensures forall i :: 0 <= i < |states[n].subscriptions| ==> states[n].subscriptions[i].(seen := {}) == ToldSubscriptions(events, n)[i]
    ensures forall u :: u in states[n].updates ==> IsUpdateOf(events, n, u, states[n].updates[u])
    ensures forall k :: 0 <= k < n && events[k].Updated? ==> events[k].updateId in states[n].updates
  {
    if n > 0 {
      AsToldSoFar(states, events, n - 1);
      forall u | u in states[n].updates ensures IsUpdateOf(events, n, u, states[n].updates[u]) {
        if events[n - 1].Updated? && events[n - 1].updateId == u {
          assert events[n - 1] == Updated(u, states[n].updates[u]);
        } else {
          var k :| 0 <= k < n - 1 && events[k] == Updated(u, states[n - 1].updates[u])
            && forall j :: k < j < n - 1 && events[j].Updated? ==> events[j].updateId != u;
        }
      }
    }
  }

  /** In every run of live and fill deliveries no subscription takes a Location twice. */
  lemma TakenAtMostOnce(states: seq<State>, events: seq<Event>, n: nat)
    requires IsRun(states, events) && n < |states|
    ensures Distinct(states[n].taken)
    ensures forall take :: take in states[n].taken <==> Has(states[n].subscriptions, take)
    ensures forall k :: 0 <= k < n && events[k].Subscribed? ==>
      exists sub :: sub in states[n].subscriptions && sub.(seen := {}) == Subscription(events[k].requestId, events[k].alias, events[k].window, {})
  {
    RunKeepsInv(states, events, n);
    AsToldSoFar(states, events, n);
    forall k | 0 <= k < n && events[k].Subscribed?
      ensures exists sub :: sub in states[n].subscriptions && sub.(seen := {}) == Subscription(events[k].requestId, events[k].alias, events[k].window, {})
    {
      var told := Subscription(events[k].requestId, events[k].alias, events[k].window, {});
      ToldIsThere(events, n, k);
      var i :| 0 <= i < |ToldSubscriptions(events, n)| && ToldSubscriptions(events, n)[i] == told;
      assert states[n].subscriptions[i] in states[n].subscriptions && states[n].subscriptions[i].(seen := {}) == told;
    }
  }

  /**
   An object under an alias someone holds reaches at least one holder, and every one that
   it reaches has it afterwards, whichever it was, owner or duplicate.
   */
  lemma HeldAliasIsServed(s: State, alias: nat, location: Location, holder: nat)
    requires holder < |s.subscriptions| && s.subscriptions[holder].alias == alias
    ensures
      var places, after := BelongsTo(s.subscriptions, alias, location), Next(s, Live(alias, location));
      && places != [] && Ascending(places, |s.subscriptions|)
      && (forall i :: 0 <= i < |places| ==> s.subscriptions[places[i]].alias == alias)
      && (forall i :: 0 <= i < |places| ==> location in after.subscriptions[places[i]].seen)
      && (forall i :: 0 <= i < |s.subscriptions| && i !in places ==> after.subscriptions[i] == s.subscriptions[i])
  {
    var places := BelongsTo(s.subscriptions, alias, location);
    assert forall i :: 0 <= i < |places| ==> places[i] in places;
  }
}
