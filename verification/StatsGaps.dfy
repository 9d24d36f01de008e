/**
 The gaps counted for one subscription, against the Objects that arrived.
 */
module StatsGaps {
  import opened Locations
  import opened Stats

  datatype Arrival = Arrival(group: nat, id: nat, priorGap: nat)

  /** What is kept of a subscription after its first `n` Objects. */
  function Followed(arrivals: seq<Arrival>, n: nat): Option<TrackSequence>
    requires n <= |arrivals|
  {
    if n == 0 then None
    else
      var a := arrivals[n - 1];
      Some(Advanced(Followed(arrivals, n - 1), a.group, a.id, a.priorGap).0)
  }

  // ---- Told from the arrivals alone ----

  /** Where the group of Object `k` was entered. */
  function EnteredAt(arrivals: seq<Arrival>, k: nat): (j: nat)
    requires k < |arrivals|
    ensures j <= k
  {
    if k == 0 || arrivals[k - 1].group != arrivals[k].group then k else EnteredAt(arrivals, k - 1)
  }

  /** How far it is from the group of Object `k` to the next one; not known of a group joined part way through. */
  function Span(arrivals: seq<Arrival>, k: nat): Option<nat>
    requires k < |arrivals|
  {
    var j := EnteredAt(arrivals, k);
    if j == 0 && arrivals[0].id > 0 then None else Some(arrivals[j].priorGap + 1)
  }

  /** Object `k` comes right after the one before it: the next of its group, or the first of the next group. */
  ghost predicate Follows(arrivals: seq<Arrival>, k: nat)
    requires 0 < k < |arrivals|
  {
    var before, a := arrivals[k - 1], arrivals[k];
    || (a.group == before.group && a.id == before.id + 1)
    || (a.group != before.group && a.id == 0
        && (Span(arrivals, k - 1).Some? ==> a.group == before.group + Span(arrivals, k - 1).value))
  }

  ghost function Gaps(arrivals: seq<Arrival>, n: nat): nat
    requires n <= |arrivals|
  {
    if n <= 1 then 0 else Gaps(arrivals, n - 1) + if Follows(arrivals, n - 1) then 0 else 1
  }

  /** One gap is counted for every Object that does not come right after the one before it, and no other. */
  lemma {:induction false} GapsAreTold(arrivals: seq<Arrival>, n: nat)
    requires 0 < n <= |arrivals|
    ensures
      var last, span := arrivals[n - 1], Span(arrivals, n - 1);
      Followed(arrivals, n) ==
        Some(TrackSequence(n, Gaps(arrivals, n), 0, last.group, last.id, if span.Some? then span.value else 0))
  {
    if n > 1 {
      GapsAreTold(arrivals, n - 1);
    } else {
      assert Followed(arrivals, 0) == None;
    }
  }

  // ---- Subscriptions with Range Filters ----

  datatype Checked = Checked(group: nat, id: nat, passed: bool)

  function Watched(arrivals: seq<Checked>, n: nat): Option<TrackSequence>
    requires n <= |arrivals|
  {
    if n == 0 then None
    else
      var a := arrivals[n - 1];
      Some(Filtered(Watched(arrivals, n - 1), a.group, a.id, a.passed))
  }

  function Failures(arrivals: seq<Checked>, n: nat): nat
    requires n <= |arrivals|
  {
    if n == 0 then 0 else Failures(arrivals, n - 1) + if arrivals[n - 1].passed then 0 else 1
  }

  /** One violation is counted for every Object that does not pass, and no gap for any. */
  lemma {:induction false} ViolationsAreTold(arrivals: seq<Checked>, n: nat)
    requires 0 < n <= |arrivals|
    ensures
      var last := arrivals[n - 1];
      Watched(arrivals, n) == Some(TrackSequence(n, 0, Failures(arrivals, n), last.group, last.id, 0))
  {
    if n > 1 {
      ViolationsAreTold(arrivals, n - 1);
    } else {
      assert Watched(arrivals, 0) == None && Failures(arrivals, 0) == 0;
    }
  }
}
