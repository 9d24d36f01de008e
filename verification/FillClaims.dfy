/**
 Claims on groups an upstream FETCH is filling into the cache.

 A claim lists the groups it fills together with a lock it holds. Dropping a claim is
 two steps, with anything in between: it leaves the list, then its lock comes free.
 */
module FillClaims {
  import opened Locations

  type Lock = nat

  datatype Fill = Fill(first: U64, last: U64, busy: Lock) {
    predicate Overlaps(from: U64, to: U64) {
      first <= to && from <= last
    }

    predicate Covers(group: U64) {
      first <= group <= last
    }

    predicate Apart(other: Fill) {
      !Overlaps(other.first, other.last) && busy != other.busy
    }
  }

  /** The list without the claim that holds `busy`. */
  function Unlisted(fills: seq<Fill>, busy: Lock): (r: seq<Fill>)
    ensures forall f :: f in r <==> f in fills && f.busy != busy
  {
    if fills == [] then []
    else
      var rest := Unlisted(fills[..|fills| - 1], busy);
      var f := fills[|fills| - 1];
      if f.busy == busy then rest else rest + [f]
  }

  /** The claims are of at least one group each. */
  ghost predicate AllForward(fills: seq<Fill>) {
    forall f :: f in fills ==> f.first <= f.last
  }

  /** Some listed claim is on one of the groups. */
  ghost predicate AnyCovered(fills: seq<Fill>, first: U64, last: U64) {
    exists f, g :: f in fills && first <= g <= last && f.Covers(g)
  }

  /** A listed claim is in the way exactly if it and the new one have a group in common. */
  lemma OverlapsMeansCovers(fills: seq<Fill>, first: U64, last: U64)
    ensures first <= last && AllForward(fills) ==>
      forall f :: f in fills ==> (f.Overlaps(first, last) <==> exists g :: first <= g <= last && f.Covers(g))
  {
    if first <= last && AllForward(fills) {
      forall f | f in fills && f.Overlaps(first, last) ensures exists g :: first <= g <= last && f.Covers(g) {
        var g := if f.first < first then first else f.first;
        assert f.Covers(g);
      }
    }
  }

  class FillList {
    var fills: seq<Fill>
    var nextLock: Lock

    constructor ()
      ensures fills == [] && nextLock == 0
    {
      fills, nextLock := [], 0;
    }

    /** Lists a claim on `first..=last` under a new lock, unless one in flight overlaps it. */
    method ClaimFill(first: U64, last: U64) returns (r: Result<Lock, Lock>)
      modifies this
      ensures r.Err? <==> exists f :: f in old(fills) && f.Overlaps(first, last)
      ensures r.Err? ==> fills == old(fills) && nextLock == old(nextLock)
      ensures r.Err? ==> exists f :: f in fills && f.Overlaps(first, last) && f.busy == r.error
      ensures first <= last && AllForward(old(fills)) ==> (r.Err? <==> AnyCovered(old(fills), first, last))
      ensures first <= last && AllForward(old(fills)) && r.Err? ==>
                exists f, g :: f in old(fills) && f.busy == r.error && first <= g <= last && f.Covers(g)
      ensures r.Ok? ==> r.value == old(nextLock) && nextLock == old(nextLock) + 1
      ensures r.Ok? ==> fills == old(fills) + [Fill(first, last, r.value)]
      ensures forall w: World :: w.fills == old(fills) && w.nextLock == old(nextLock) ==>
                Moved(w, Claim(first, last)).fills == fills && Moved(w, Claim(first, last)).nextLock == nextLock
    {
      OverlapsMeansCovers(fills, first, last);
      for i := 0 to |fills|
        invariant fills == old(fills) && nextLock == old(nextLock)
        invariant forall k :: 0 <= k < i ==> !fills[k].Overlaps(first, last)
      {
        if fills[i].Overlaps(first, last) {
          return Err(fills[i].busy);
        }
      }
      var busy := nextLock;
      nextLock := nextLock + 1;
      fills := fills + [Fill(first, last, busy)];
      return Ok(busy);
    }

    /** The first half of dropping a claim. */
    method Unlist(busy: Lock)
      modifies this
      ensures fills == Unlisted(old(fills), busy) && nextLock == old(nextLock)
      ensures forall w: World :: w.fills == old(fills) ==> Moved(w, Move.Unlist(busy)).fills == fills
    {
      fills := Unlisted(fills, busy);
    }
  }

  // ---- Every interleaving ----

  datatype Holder = Filler | Waiter

  /** `dropping` are the claims off the list whose lock is still to be released. */
  datatype World = World(
    fills: seq<Fill>, nextLock: Lock, held: map<Lock, Holder>, live: set<Lock>, dropping: set<Lock>)

  datatype Move =
    | Claim(first: U64, last: U64)
    | Unlist(busy: Lock)
    | Release(busy: Lock)
    | Acquire(busy: Lock)
    | WaiterDone(busy: Lock)

  ghost predicate Enabled(w: World, m: Move) {
    match m
    case Claim(_, _) => true
    case Unlist(busy) => busy in w.live
    case Release(busy) => busy in w.dropping
    case Acquire(busy) => busy < w.nextLock && busy !in w.held
    case WaiterDone(busy) => busy in w.held && w.held[busy] == Waiter
  }

  ghost function Moved(w: World, m: Move): World {
    match m
    case Claim(first, last) =>
      if exists f :: f in w.fills && f.Overlaps(first, last) then w
      else w.(
           fills := w.fills + [Fill(first, last, w.nextLock)],
           nextLock := w.nextLock + 1,
           held := w.held[w.nextLock := Filler],
           live := w.live + {w.nextLock})
    case Unlist(busy) =>
      w.(fills := Unlisted(w.fills, busy), live := w.live - {busy}, dropping := w.dropping + {busy})
    case Release(busy) => w.(held := w.held - {busy}, dropping := w.dropping - {busy})
    case Acquire(busy) => w.(held := w.held[busy := Waiter])
    case WaiterDone(busy) => w.(held := w.held - {busy})
  }

  const START := World([], 0, map[], {}, {})

  ghost predicate AllApart(fills: seq<Fill>) {
    forall i, j :: 0 <= i < j < |fills| ==> fills[i].Apart(fills[j])
  }

  lemma {:induction false} UnlistedStaysApart(fills: seq<Fill>, busy: Lock)
    requires AllApart(fills)
    ensures AllApart(Unlisted(fills, busy))
  {
    if fills != [] {
      var init := fills[..|fills| - 1];
      UnlistedStaysApart(init, busy);
      var rest := Unlisted(init, busy);
      forall i | 0 <= i < |rest| ensures rest[i].Apart(fills[|fills| - 1]) {
        assert rest[i] in rest;
        var k :| 0 <= k < |init| && init[k] == rest[i];
      }
    }
  }

  ghost predicate Sound(w: World) {
    && AllApart(w.fills)
    && (forall f :: f in w.fills ==> f.busy in w.live)
    && (forall b :: b in w.live + w.dropping ==> b in w.held && w.held[b] == Filler)
    && w.live !! w.dropping
    && (forall b :: b in w.held ==> b < w.nextLock)
  }

  lemma MoveKeepsSound(w: World, m: Move)
    requires Sound(w) && Enabled(w, m)
    ensures Sound(Moved(w, m))
  {
    var w' := Moved(w, m);
    match m
    case Claim(first, last) =>
      forall i | 0 <= i < |w.fills| ensures w.fills[i].busy != w.nextLock {
        assert w.fills[i] in w.fills;
        assert w.fills[i].busy in w.live + w.dropping;
      }
    case Unlist(busy) => UnlistedStaysApart(w.fills, busy);
    case Release(busy) =>
    case Acquire(busy) =>
    case WaiterDone(busy) =>
  }

  ghost predicate IsRun(worlds: seq<World>, moves: seq<Move>) {
    && |worlds| == |moves| + 1 && worlds[0] == START
    && forall i :: 0 <= i < |moves| ==> Enabled(worlds[i], moves[i]) && worlds[i + 1] == Moved(worlds[i], moves[i])
  }

  lemma {:induction false} RunIsSound(worlds: seq<World>, moves: seq<Move>, n: nat)
    requires IsRun(worlds, moves) && n < |worlds|
    ensures Sound(worlds[n])
  {
    if n > 0 {
      RunIsSound(worlds, moves, n - 1);
      MoveKeepsSound(worlds[n - 1], moves[n - 1]);
    }
  }

  /**
   In every reachable world: no group is claimed twice, every listed claim's lock is
   held by its filler, and whoever waited for a lock and got it finds that claim gone.
   */
  lemma ClaimsExclude(worlds: seq<World>, moves: seq<Move>, n: nat)
    requires IsRun(worlds, moves) && n < |worlds|
    ensures
      var w := worlds[n];
      && (forall i, j, g: U64 :: 0 <= i < j < |w.fills| ==> !(w.fills[i].Covers(g) && w.fills[j].Covers(g)))
      && (forall f :: f in w.fills ==> f.busy in w.held && w.held[f.busy] == Filler)
      && (forall b :: b in w.held && w.held[b] == Waiter ==> forall f :: f in w.fills ==> f.busy != b)
  {
    RunIsSound(worlds, moves, n);
  }

  ghost predicate ClaimsForward(moves: seq<Move>) {
    forall i :: 0 <= i < |moves| && moves[i].Claim? ==> moves[i].first <= moves[i].last
  }

  lemma {:induction false} RunIsForward(worlds: seq<World>, moves: seq<Move>, n: nat)
    requires IsRun(worlds, moves) && n < |worlds| && ClaimsForward(moves)
    ensures AllForward(worlds[n].fills)
  {
    if n > 0 {
      RunIsForward(worlds, moves, n - 1);
    }
  }

  /**
   In every run of claims of at least one group each, a claim changes nothing exactly if one
   of its groups is claimed already, and otherwise all its groups, and no others, are
   claimed on top of those there were.
   */
  lemma RefusedExactly(worlds: seq<World>, moves: seq<Move>, n: nat, first: U64, last: U64)
    requires IsRun(worlds, moves) && n < |worlds| && ClaimsForward(moves) && first <= last
    ensures
      var w, w' := worlds[n], Moved(worlds[n], Claim(first, last));
      && Enabled(w, Claim(first, last))
      && (w' == w <==> AnyCovered(w.fills, first, last))
      && (w' != w ==> forall g: U64 :: AnyCovered(w'.fills, g, g) <==> AnyCovered(w.fills, g, g) || first <= g <= last)
  {
    var w, w' := worlds[n], Moved(worlds[n], Claim(first, last));
    RunIsForward(worlds, moves, n);
    OverlapsMeansCovers(w.fills, first, last);
    if w' != w {
      forall g: U64 ensures AnyCovered(w'.fills, g, g) <==> AnyCovered(w.fills, g, g) || first <= g <= last {
        var mine := Fill(first, last, w.nextLock);
        assert w'.fills[|w.fills|] == mine && forall f :: f in w.fills ==> f in w'.fills;
        if first <= g <= last {
          assert mine.Covers(g);
        }
        if AnyCovered(w'.fills, g, g) {
          var f, h :| f in w'.fills && g <= h <= g && f.Covers(h);
          assert f == mine || f in w.fills;
        }
      }
    }
  }

  /** Of those waiting for a lock that is free, one gets it and keeps it until it is done; nothing else changes. */
  ghost predicate TakesTurns(w: World, busy: Lock) {
    var taken := Moved(w, Acquire(busy));
    && Enabled(w, Acquire(busy)) && !Enabled(taken, Acquire(busy))
    && Enabled(taken, WaiterDone(busy)) && Moved(taken, WaiterDone(busy)) == w
  }

  /**
   A refusal names a claim in flight: until that claim is dropped its lock cannot be
   taken, and the next claim of the same groups is not refused on its account once it is.
   Those who waited for the lock then have it one after the other.
   */
  lemma RefusalEndsWithTheClaim(w: World, first: U64, last: U64, busy: Lock)
    requires Sound(w) && exists f :: f in w.fills && f.Overlaps(first, last) && f.busy == busy
    ensures !Enabled(w, Acquire(busy)) && Enabled(w, Unlist(busy))
    ensures
      var dropped := Moved(w, Unlist(busy));
      && !Enabled(dropped, Acquire(busy)) && Enabled(dropped, Release(busy))
      && Enabled(Moved(dropped, Release(busy)), Acquire(busy))
      && (forall f :: f in Moved(dropped, Release(busy)).fills <==> f in w.fills && f.busy != busy)
      && TakesTurns(Moved(dropped, Release(busy)), busy)
  {
    var freed := Moved(Moved(w, Unlist(busy)), Release(busy));
    assert freed.held[busy := Waiter] - {busy} == freed.held;
  }
}
