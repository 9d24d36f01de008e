/**
 The subscriptions of one track and the three indexes over them: the subscriptions
 themselves, the request IDs of each connection, and the event senders spread over
 partitions by a hash of the subscription's ID.
 */
module SubscriptionManager {
  import opened Locations
  import opened Sequences

  const PARTITIONS: nat := 16

  datatype SubscriptionId = SubscriptionId(connection: nat, request: nat)

  // ---- Agreement, on the values of the indexes ----

  /** The request is among those noted for its connection. */
  predicate Noted(requestIds: map<nat, set<nat>>, id: SubscriptionId) {
    id.connection in requestIds && id.request in requestIds[id.connection]
  }

  /** The requests noted are exactly these subscriptions, and no connection is left without any. */
  ghost predicate NotedAre(requestIds: map<nat, set<nat>>, ids: set<SubscriptionId>) {
    && (forall id :: id in ids <==> Noted(requestIds, id))
    && (forall c :: c in requestIds ==> requestIds[c] != {})
  }

  function PartitionOf(hash: SubscriptionId -> nat, id: SubscriptionId): nat {
    hash(id) % PARTITIONS
  }

  /** Each subscription's channel is in the partition its hash names and in no other. */
  ghost predicate SendersAre<C>(
    senders: seq<map<SubscriptionId, C>>, channels: map<SubscriptionId, C>, hash: SubscriptionId -> nat)
  {
    && |senders| == PARTITIONS
    && (forall p, id :: 0 <= p < PARTITIONS ==>
          (id in senders[p] <==> id in channels && p == PartitionOf(hash, id)))
    && (forall p, id :: 0 <= p < PARTITIONS && id in senders[p] ==> id in channels && senders[p][id] == channels[id])
  }

  function WithNoted(requestIds: map<nat, set<nat>>, id: SubscriptionId): map<nat, set<nat>> {
    var noted := if id.connection in requestIds then requestIds[id.connection] else {};
    requestIds[id.connection := noted + {id.request}]
  }

  function WithoutNoted(requestIds: map<nat, set<nat>>, id: SubscriptionId): map<nat, set<nat>> {
    if id.connection !in requestIds then requestIds
    else
      var left := requestIds[id.connection] - {id.request};
      if left == {} then requestIds - {id.connection} else requestIds[id.connection := left]
  }

  lemma NotedWith(requestIds: map<nat, set<nat>>, ids: set<SubscriptionId>, id: SubscriptionId)
    requires NotedAre(requestIds, ids)
    ensures NotedAre(WithNoted(requestIds, id), ids + {id})
  {
    forall other ensures other in ids + {id} <==> Noted(WithNoted(requestIds, id), other) {
      assert other in ids <==> Noted(requestIds, other);
      assert other.connection == id.connection && other.request == id.request ==> other == id;
    }
  }

  lemma NotedWithout(requestIds: map<nat, set<nat>>, ids: set<SubscriptionId>, id: SubscriptionId)
    requires NotedAre(requestIds, ids)
    ensures NotedAre(WithoutNoted(requestIds, id), ids - {id})
  {
    var left := if id.connection in requestIds then requestIds[id.connection] - {id.request} else {};
    forall other ensures other in ids - {id} <==> Noted(WithoutNoted(requestIds, id), other) {
      assert other.request in left ==> left != {};
      assert other in ids <==> Noted(requestIds, other);
      assert other.connection == id.connection && other.request == id.request ==> other == id;
    }
  }

  lemma TheirRequests(requestIds: map<nat, set<nat>>, ids: set<SubscriptionId>, connection: nat)
    requires NotedAre(requestIds, ids)
    ensures forall id :: id in ids && id.connection == connection ==> connection in requestIds && id.request in requestIds[connection]
    ensures connection in requestIds ==> forall r :: r in requestIds[connection] ==> SubscriptionId(connection, r) in ids
    ensures connection in requestIds ==> requestIds[connection] != {}
  {
    forall id | id in ids && id.connection == connection ensures connection in requestIds && id.request in requestIds[connection] {
      assert Noted(requestIds, id);
    }
    if connection in requestIds {
      forall r | r in requestIds[connection] ensures SubscriptionId(connection, r) in ids {
        assert Noted(requestIds, SubscriptionId(connection, r));
      }
    }
  }

  /** The subscriptions of other connections, and of this one those with these requests. */
  ghost function Keeping<V>(all: map<SubscriptionId, V>, connection: nat, requests: set<nat>): map<SubscriptionId, V> {
    map id | id in all && (id.connection == connection ==> id.request in requests) :: all[id]
  }

  /** The subscriptions of this connection with other requests. */
  ghost function Dropped<V>(all: map<SubscriptionId, V>, connection: nat, requests: set<nat>): set<V> {
    set id | id in all && id.connection == connection && id.request !in requests :: all[id]
  }

  lemma KeepingAll<V>(requestIds: map<nat, set<nat>>, all: map<SubscriptionId, V>, connection: nat, requests: set<nat>)
    requires NotedAre(requestIds, all.Keys)
    requires requests == if connection in requestIds then requestIds[connection] else {}
    ensures Keeping(all, connection, requests) == all && Dropped(all, connection, requests) == {}
    ensures forall r :: r in requests ==> SubscriptionId(connection, r) in all
  {
    TheirRequests(requestIds, all.Keys, connection);
  }

  lemma DroppedMore<V>(all: map<SubscriptionId, V>, connection: nat, requests: set<nat>, r: nat)
    requires r in requests && SubscriptionId(connection, r) in all
    ensures Dropped(all, connection, requests) + {all[SubscriptionId(connection, r)]} == Dropped(all, connection, requests - {r})
  {
    var id := SubscriptionId(connection, r);
    forall v | v in Dropped(all, connection, requests - {r}) ensures v in Dropped(all, connection, requests) + {all[id]} {
      var other :| other in all && other.connection == connection && other.request !in requests - {r} && all[other] == v;
      assert other.request == r ==> other == id;
    }
  }

  lemma KeepingLess<V>(all: map<SubscriptionId, V>, connection: nat, requests: set<nat>, r: nat, before: set<V>)
    requires r in requests && SubscriptionId(connection, r) in all
    ensures Keeping(all, connection, requests) - {SubscriptionId(connection, r)} == Keeping(all, connection, requests - {r})
    ensures before + Dropped(all, connection, requests) + {all[SubscriptionId(connection, r)]} == before + Dropped(all, connection, requests - {r})
    ensures |requests - {r}| < |requests|
  {
    DroppedMore(all, connection, requests, r);
  }

  lemma SendersWith<C>(
    senders: seq<map<SubscriptionId, C>>, channels: map<SubscriptionId, C>, hash: SubscriptionId -> nat,
    id: SubscriptionId, channel: C)
    requires SendersAre(senders, channels, hash)
    ensures var p := PartitionOf(hash, id); SendersAre(senders[p := senders[p][id := channel]], channels[id := channel], hash)
  {
  }

  lemma SendersWithout<C>(
    senders: seq<map<SubscriptionId, C>>, channels: map<SubscriptionId, C>, hash: SubscriptionId -> nat, id: SubscriptionId)
    requires SendersAre(senders, channels, hash)
    ensures var p := PartitionOf(hash, id); SendersAre(senders[p := senders[p] - {id}], channels - {id}, hash)
  {
  }

  lemma InPartition<C>(
    senders: seq<map<SubscriptionId, C>>, channels: map<SubscriptionId, C>, hash: SubscriptionId -> nat, p: nat)
    requires SendersAre(senders, channels, hash) && p < PARTITIONS
    ensures forall id :: id in senders[p] <==> id in channels && PartitionOf(hash, id) == p
    ensures forall id :: id in senders[p] ==> senders[p][id] == channels[id]
  {
  }

  ghost function ChannelsOf<Event>(subscriptions: map<SubscriptionId, Subscription<Event>>): map<SubscriptionId, Channel<Event>> {
    map id | id in subscriptions :: subscriptions[id].events
  }

  /** The event queue of one subscription. It is closed once its reader has gone. */
  class Channel<Event> {
    const owner: SubscriptionId
    var closed: bool
    var queue: seq<Event>

    constructor (owner: SubscriptionId)
      ensures this.owner == owner && !closed && queue == []
    {
      this.owner := owner;
      closed := false;
      queue := [];
    }

    method Send(event: Event) returns (ok: bool)
      modifies this`queue
      ensures ok == !closed
      ensures queue == if closed then old(queue) else old(queue) + [event]
    {
      if closed {
        return false;
      }
      queue := queue + [event];
      return true;
    }
  }

  datatype Subscription<Event> = Subscription(id: SubscriptionId, events: Channel<Event>)

  /** `cancelled` are the subscriptions that were told to reset their streams. */
  class Manager<Event> {
    /** Any hash at all: nothing below depends on which. */
    const hash: SubscriptionId -> nat
    var subscriptions: map<SubscriptionId, Subscription<Event>>
    var requestIds: map<nat, set<nat>>
    var senders: seq<map<SubscriptionId, Channel<Event>>>
    var cancelled: set<Subscription<Event>>

    /** The three indexes hold the same subscriptions. */
    ghost predicate Valid()
      reads this
    {
      && (forall id :: id in subscriptions ==> subscriptions[id].id == id && subscriptions[id].events.owner == id)
      && NotedAre(requestIds, subscriptions.Keys)
      && SendersAre(senders, ChannelsOf(subscriptions), hash)
    }

    constructor (hash: SubscriptionId -> nat)
      ensures Valid() && subscriptions == map[] && cancelled == {} && this.hash == hash
    {
      this.hash := hash;
      subscriptions := map[];
      requestIds := map[];
      senders := seq(PARTITIONS, _ => map[]);
      cancelled := {};
    }

    /** A subscription of an ID that is free; None, and nothing changed, if it is taken. */
    method AddSubscription(id: SubscriptionId) returns (added: Option<Subscription<Event>>)
      requires Valid()
      modifies this
      ensures Valid()
      ensures added.None? <==> id in old(subscriptions)
      ensures added.None? ==> subscriptions == old(subscriptions) && requestIds == old(requestIds) && senders == old(senders)
      ensures cancelled == old(cancelled)
      ensures added.Some? ==>
        && fresh(added.value.events) && !added.value.events.closed && added.value.events.queue == []
        && subscriptions == old(subscriptions)[id := added.value]
    {
      if id in subscriptions {
        return None;
      }
      var channel := new Channel<Event>(id);
      var subscription := Subscription(id, channel);
      NotedWith(requestIds, subscriptions.Keys, id);
      SendersWith(senders, ChannelsOf(subscriptions), hash, id, channel);
      assert ChannelsOf(subscriptions[id := subscription]) == ChannelsOf(subscriptions)[id := channel];
      assert subscriptions[id := subscription].Keys == subscriptions.Keys + {id};
      subscriptions := subscriptions[id := subscription];
      requestIds := WithNoted(requestIds, id);
      var p := PartitionOf(hash, id);
      senders := senders[p := senders[p][id := channel]];
      return Some(subscription);
    }

    /** The subscription, if there is one, is cancelled and leaves every index. */
    method RemoveSubscription(id: SubscriptionId)
      requires Valid()
      modifies this
      ensures Valid()
      ensures subscriptions == old(subscriptions) - {id}
      ensures cancelled == old(cancelled) + (if id in old(subscriptions) then {old(subscriptions)[id]} else {})
    {
      var removed := if id in subscriptions then Some(subscriptions[id]) else None;
      NotedWithout(requestIds, subscriptions.Keys, id);
      SendersWithout(senders, ChannelsOf(subscriptions), hash, id);
      assert ChannelsOf(subscriptions - {id}) == ChannelsOf(subscriptions) - {id};
      assert (subscriptions - {id}).Keys == subscriptions.Keys - {id};
      subscriptions := subscriptions - {id};
      requestIds := WithoutNoted(requestIds, id);
      if removed.Some? {
        cancelled := cancelled + {removed.value};
      }
      var p := PartitionOf(hash, id);
      senders := senders[p := senders[p] - {id}];
    }

    /** Every subscription of a connection goes, cancelled; the others stay as they were. */
    method RemoveSubscriptions(connection: nat)
      requires Valid()
      modifies this
      ensures Valid()
      ensures subscriptions == Keeping(old(subscriptions), connection, {})
      ensures cancelled == old(cancelled) + Dropped(old(subscriptions), connection, {})
      ensures connection !in requestIds
    {
      ghost var was := subscriptions;
      var todo := if connection in requestIds then requestIds[connection] else {};
      KeepingAll(requestIds, was, connection, todo);
      while todo != {}
        invariant Valid()
        invariant subscriptions == Keeping(was, connection, todo)
        invariant cancelled == old(cancelled) + Dropped(was, connection, todo)
        invariant forall r :: r in todo ==> SubscriptionId(connection, r) in was
        decreases |todo|
      {
        var r :| r in todo;
        KeepingLess(was, connection, todo, r, old(cancelled));
        RemoveSubscription(SubscriptionId(connection, r));
        todo := todo - {r};
      }
      TheirRequests(requestIds, subscriptions.Keys, connection);
    }

    /** Everything is taken off the track, nothing is cancelled. */
    method DetachAll() returns (detached: map<SubscriptionId, Subscription<Event>>)
      requires Valid()
      modifies this
      ensures Valid()
      ensures detached == old(subscriptions) && subscriptions == map[] && requestIds == map[] && cancelled == old(cancelled)
      ensures forall p :: 0 <= p < PARTITIONS ==> senders[p] == map[]
    {
      detached := subscriptions;
      subscriptions := map[];
      requestIds := map[];
      var p := 0;
      while p < PARTITIONS
        invariant 0 <= p <= PARTITIONS && |senders| == PARTITIONS
        invariant subscriptions == map[] && requestIds == map[] && cancelled == old(cancelled)
        invariant forall q :: 0 <= q < p ==> senders[q] == map[]
      {
        senders := senders[p := map[]];
        p := p + 1;
      }
    }

    /** One partition's share of an event: each of its channels is offered it once. */
    static method SendToPartition(partition: map<SubscriptionId, Channel<Event>>, event: Event) returns (failed: seq<SubscriptionId>)
      requires forall id :: id in partition ==> partition[id].owner == id
      modifies partition.Values`queue
      ensures forall id :: id in partition ==> Offered(partition[id], old(partition[id].queue), event)
      ensures forall id :: id in failed <==> id in partition && partition[id].closed
      ensures Distinct(failed)
    {
      failed := [];
      var todo := partition.Keys;
      while todo != {}
        invariant todo <= partition.Keys
        invariant forall id :: id in todo ==> partition[id].queue == old(partition[id].queue)
        invariant forall id :: id in partition && id !in todo ==> Offered(partition[id], old(partition[id].queue), event)
        invariant forall id :: id in failed <==> id in partition && id !in todo && partition[id].closed
        invariant Distinct(failed)
        decreases |todo|
      {
        var id :| id in todo;
        var ok := partition[id].Send(event);
        if !ok {
          DistinctTogether(failed, [id]);
          failed := failed + [id];
        }
        todo := todo - {id};
      }
    }

    /**
     The event is put once in the queue of each live subscription whose channel is open,
     and in no other; the IDs returned are those whose channel is closed, each once.
     */
    method SendEvent(event: Event) returns (failed: seq<SubscriptionId>)
      requires Valid()
      modifies ChannelsOf(subscriptions).Values`queue
      ensures forall id :: id in subscriptions ==> Offered(subscriptions[id].events, old(subscriptions[id].events.queue), event)
      ensures forall id :: id in failed <==> id in subscriptions && subscriptions[id].events.closed
      ensures Distinct(failed)
    {
      ghost var channels := ChannelsOf(subscriptions);
      assert forall id :: id in channels ==> channels[id] == subscriptions[id].events && channels[id].owner == id;
      var partitions := senders;
      failed := [];
      var p := 0;
      while p < PARTITIONS
        invariant 0 <= p <= PARTITIONS
        invariant forall id :: id in channels && PartitionOf(hash, id) >= p ==> channels[id].queue == old(channels[id].queue)
        invariant forall id :: id in channels && PartitionOf(hash, id) < p ==> Offered(channels[id], old(channels[id].queue), event)
        invariant forall id :: id in failed <==> id in channels && channels[id].closed && PartitionOf(hash, id) < p
        invariant Distinct(failed)
      {
        InPartition(partitions, channels, hash, p);
        var more := SendToPartition(partitions[p], event);
        DistinctTogether(failed, more);
        failed := failed + more;
        p := p + 1;
      }
    }

    static ghost predicate Offered(channel: Channel<Event>, before: seq<Event>, event: Event)
      reads channel
    {
      channel.queue == if channel.closed then before else before + [event]
    }
  }
}
