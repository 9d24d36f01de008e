/**
 The client's receive path: an object is routed, and counted once for each subscription
 that took it. What the report says a subscription received is how many Locations it has.
 */
module Reception {
  import opened Locations
  import opened Sequences
  import opened Routing
  import opened Stats

  ghost function Count(tracks: map<nat, TrackSequence>, fills: map<nat, nat>, r: nat): nat {
    Line(tracks, fills, r).received
  }

  /** Every subscription is counted for each Location it has, and nobody else for any. */
  ghost predicate CountsMatch(subscriptions: seq<Subscription>, tracks: map<nat, TrackSequence>, fills: map<nat, nat>) {
    && UniqueIds(subscriptions)
    && (forall i :: 0 <= i < |subscriptions| ==>
          Count(tracks, fills, subscriptions[i].requestId) == |subscriptions[i].seen|)
    && (forall r: nat :: r in tracks || r in fills ==> Known(subscriptions, r))
  }

  ghost predicate Known(subscriptions: seq<Subscription>, r: nat) {
    exists i :: 0 <= i < |subscriptions| && subscriptions[i].requestId == r
  }

  /** One more for each of the owners. */
  ghost predicate CountedOnce(
    tracks: map<nat, TrackSequence>, fills: map<nat, nat>, tracks': map<nat, TrackSequence>, fills': map<nat, nat>, owners: seq<nat>)
  {
    && (forall r: nat :: Count(tracks', fills', r) == Count(tracks, fills, r) + if r in owners then 1 else 0)
    && (forall r: nat :: r in tracks' || r in fills' ==> r in tracks || r in fills || r in owners)
  }

  lemma OwnerHere(subscriptions: seq<Subscription>, places: seq<nat>, location: Location, i: nat)
    requires Ascending(places, |subscriptions|) && UniqueIds(subscriptions) && i < |subscriptions|
    ensures subscriptions[i].requestId in Owners(subscriptions, places, location) <==>
      i in places && location !in subscriptions[i].seen
  {
    OwnersAre(subscriptions, places, location);
    var r := subscriptions[i].requestId;
    if Lacks(subscriptions, places, location, r) {
      var j: nat :| j in places && subscriptions[j].requestId == r && location !in subscriptions[j].seen;
      assert j == i;
    }
  }

  lemma OwnerIsKnown(subscriptions: seq<Subscription>, places: seq<nat>, location: Location, r: nat)
    requires Ascending(places, |subscriptions|) && UniqueIds(subscriptions)
    requires r in Owners(subscriptions, places, location)
    ensures Known(subscriptions, r)
  {
    OwnersAre(subscriptions, places, location);
    var j: nat :| j in places && subscriptions[j].requestId == r && location !in subscriptions[j].seen;
    assert subscriptions[j].requestId == r;
  }

  lemma SeenAfter(subscriptions: seq<Subscription>, places: seq<nat>, location: Location, i: nat)
    requires Ascending(places, |subscriptions|) && UniqueIds(subscriptions) && i < |subscriptions|
    ensures
      var s, s' := subscriptions[i], Marked(subscriptions, places, location)[i];
      && s'.requestId == s.requestId
      && |s'.seen| == |s.seen| + if s.requestId in Owners(subscriptions, places, location) then 1 else 0
  {
    OwnerHere(subscriptions, places, location, i);
    var s := subscriptions[i];
    if location in s.seen {
      assert s.seen + {location} == s.seen;
    }
  }

  lemma KnownAfter(subscriptions: seq<Subscription>, places: seq<nat>, location: Location, r: nat)
    ensures Known(subscriptions, r) <==> Known(Marked(subscriptions, places, location), r)
  {
    var after := Marked(subscriptions, places, location);
    assert forall i :: 0 <= i < |subscriptions| ==> after[i].requestId == subscriptions[i].requestId;
    if i :| 0 <= i < |subscriptions| && subscriptions[i].requestId == r {
      assert after[i].requestId == r;
    }
  }

  lemma CountsStillMatch(
    subscriptions: seq<Subscription>, places: seq<nat>, location: Location,
    tracks: map<nat, TrackSequence>, fills: map<nat, nat>, tracks': map<nat, TrackSequence>, fills': map<nat, nat>)
    requires CountsMatch(subscriptions, tracks, fills) && Ascending(places, |subscriptions|)
    requires CountedOnce(tracks, fills, tracks', fills', Owners(subscriptions, places, location))
    ensures CountsMatch(Marked(subscriptions, places, location), tracks', fills')
  {
    var after := Marked(subscriptions, places, location);
    forall i | 0 <= i < |subscriptions|
      ensures after[i].requestId == subscriptions[i].requestId && Count(tracks', fills', after[i].requestId) == |after[i].seen|
    {
      SeenAfter(subscriptions, places, location, i);
    }
    forall r: nat | r in tracks' || r in fills' ensures Known(after, r) {
      KnownAfter(subscriptions, places, location, r);
      if r in Owners(subscriptions, places, location) {
        OwnerIsKnown(subscriptions, places, location, r);
      }
    }
  }

  /** How an object that a subscription took is counted. */
  datatype Kind = ByFill | AgainstFilters(passed: bool) | InOrder(priorGap: nat)

  class Receiver {
    const router: Router
    const stats: ReceptionStats

    ghost predicate Valid()
      reads this, router, stats
    {
      stats.Valid() && CountsMatch(router.subscriptions, stats.tracks, stats.fills)
    }

    constructor ()
      ensures Valid() && fresh(router) && fresh(stats) && router.subscriptions == []
    {
      router := new Router();
      stats := new ReceptionStats();
    }

    method Subscribe(requestId: nat, alias: nat, window: Window)
      requires Valid() && !Known(router.subscriptions, requestId)
      modifies router
      ensures Valid() && router.subscriptions == old(router.subscriptions) + [Subscription(requestId, alias, window, {})]
    {
      ghost var was := router.subscriptions;
      router.Add(requestId, alias, window);
      assert forall i :: 0 <= i < |was| ==> router.subscriptions[i] == was[i];
      forall r: nat | Known(was, r) ensures Known(router.subscriptions, r) {
        var i :| 0 <= i < |was| && was[i].requestId == r;
        assert router.subscriptions[i].requestId == r;
      }
    }

    /** One object into one subscription. */
    method Record(owner: nat, kind: Kind, location: Location)
      requires stats.Valid()
      modifies stats
      ensures stats.Valid() && stats.duplicates == old(stats.duplicates)
      ensures CountedOnce(old(stats.tracks), old(stats.fills), stats.tracks, stats.fills, [owner])
      ensures stats.totalReceived == old(stats.totalReceived) + 1
    {
      match kind {
        case ByFill =>
          stats.RecordFillObject(owner);
        case AgainstFilters(passed) =>
          var _ := stats.RecordFilteredObject(owner, location.group, location.id, passed);
        case InOrder(priorGap) =>
          var _ := stats.RecordObject(owner, location.group, location.id, priorGap);
      }
    }

    /** One object into each of its owners. */
    method RecordAll(owners: seq<nat>, fill: bool, location: Location, kindFor: nat -> Kind)
      requires stats.Valid()
      requires Distinct(owners)
      modifies stats
      ensures stats.Valid() && stats.duplicates == old(stats.duplicates)
      ensures CountedOnce(old(stats.tracks), old(stats.fills), stats.tracks, stats.fills, owners)
      ensures stats.totalReceived == old(stats.totalReceived) + |owners|
    {
      ghost var tracks, fills := stats.tracks, stats.fills;
      var k := 0;
      while k < |owners|
        invariant 0 <= k <= |owners| && stats.Valid() && stats.duplicates == old(stats.duplicates)
        invariant stats.totalReceived == old(stats.totalReceived) + k
        invariant CountedOnce(tracks, fills, stats.tracks, stats.fills, owners[..k])
      {
        ghost var tracks1, fills1 := stats.tracks, stats.fills;
        Record(owners[k], if fill then ByFill else kindFor(owners[k]), location);
        k := k + 1;
      }
      assert owners[..k] == owners;
    }

    method RouteObject(fillRequest: Option<nat>, alias: nat, location: Location) returns (route: Routed)
      modifies router`subscriptions
      ensures Handed(old(router.subscriptions), router.subscriptions,
        Destination(old(router.subscriptions), router.updates, fillRequest, alias, location), location, route)
    {
      if fillRequest.Some? {
        route := router.RouteFill(fillRequest.value, location);
      } else {
        route := router.Route(alias, location);
      }
    }

    /**
     A live object by its alias or a fill's object by its request. Each subscription it
     belongs to counts it or had it: nothing is lost and nothing is counted twice.
     */
    method Receive(fillRequest: Option<nat>, alias: nat, location: Location, kindFor: nat -> Kind)
      requires Valid()
      modifies router`subscriptions, stats
      ensures Valid()
      ensures
        var places := Destination(old(router.subscriptions), router.updates, fillRequest, alias, location);
        && router.subscriptions == Marked(old(router.subscriptions), places, location)
        && stats.totalReceived + stats.duplicates == old(stats.totalReceived) + old(stats.duplicates) + |places|
    {
      ghost var was, tracks, fills := router.subscriptions, stats.tracks, stats.fills;
      ghost var places := Destination(was, router.updates, fillRequest, alias, location);
      var route := RouteObject(fillRequest, alias, location);
      OwnersAre(was, places, location);
      stats.RecordDuplicates(route.duplicates);
      RecordAll(route.owners, fillRequest.Some?, location, kindFor);
      CountsStillMatch(was, places, location, tracks, fills, stats.tracks, stats.fills);
    }

    /** The report: each subscription's line tells how many Locations it has, and the lines add up. */
    method Report() returns (reports: seq<TrackReport>)
      requires Valid()
      ensures Together(reports).received == stats.totalReceived
      ensures forall i, j :: 0 <= i < j < |reports| ==> reports[i].track < reports[j].track
      ensures forall report :: report in reports ==> Known(router.subscriptions, report.track)
      ensures forall i, report :: 0 <= i < |router.subscriptions| && report in reports ==>
        report.track == router.subscriptions[i].requestId ==> report.received == |router.subscriptions[i].seen|
      ensures forall i :: 0 <= i < |router.subscriptions| && router.subscriptions[i].seen != {} ==>
        exists report :: report in reports && report.track == router.subscriptions[i].requestId
    {
      reports := stats.PerTrack();
      forall i | 0 <= i < |router.subscriptions| && router.subscriptions[i].seen != {}
        ensures exists report :: report in reports && report.track == router.subscriptions[i].requestId
      {
        assert Line(stats.tracks, stats.fills, router.subscriptions[i].requestId) in reports;
      }
    }
  }

  function Destination(
    subscriptions: seq<Subscription>, updates: map<nat, nat>, fillRequest: Option<nat>, alias: nat, location: Location): (places: seq<nat>)
    ensures Ascending(places, |subscriptions|)
  {
    if fillRequest.Some? then FillOwner(subscriptions, updates, fillRequest.value) else BelongsTo(subscriptions, alias, location)
  }
}
