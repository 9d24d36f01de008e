/**
 What a subscription currently delivers: its window, its Forward State and whether a
 switch is draining it.
 */
module SubscriptionStates {
  import opened Locations

  datatype LocationFilter =
    | NoFilter
    | RelativeStart(startGroup: U64)
    | AbsoluteStart(start: Location)
    | AbsoluteStartGroupEnd(start: Location, endGroup: U64)
    | AbsoluteRange(start: Location, end: Location)
    | NextObject
  {
    /** The first Location the filter passes, given the track's largest. */
    function StartLocation(largest: Option<Location>): Option<Location> {
      match this
      case NoFilter => None
      case RelativeStart(back) =>
        (match largest
         case None => Some(Location(0, 0))
         case Some(l) =>
           var group := if l.group + 1 < back then 0 else l.group + 1 - back;
           Some(Location(if group > U64_MAX then U64_MAX else group, 0)))
      case AbsoluteStart(start) => Some(start)
      case AbsoluteStartGroupEnd(start, _) => Some(start)
      case AbsoluteRange(start, _) => Some(start)
      case NextObject =>
        (match largest
         case None => Some(Location(0, 0))
         case Some(l) => Some(Location(l.group, if l.id == U64_MAX then U64_MAX else l.id + 1)))
    }

    /** The last Location the filter passes. */
    function EndLocation(): Option<Location> {
      match this
      case AbsoluteStartGroupEnd(_, group) => Some(Location(group, U64_MAX))
      case AbsoluteRange(_, end) => Some(end)
      case _ => None
    }

    predicate IsLive() {
      NextObject? || RelativeStart?
    }
  }

  /** What happens to an Object that reaches the subscription. */
  datatype Verdict = BeforeStart | PastEnd | NotForwarding | Filtered | Deliver

  datatype SubscriptionState = SubscriptionState(
    forward: bool,
    filter: LocationFilter,
    start: Option<Location>,
    endGroup: Option<U64>,
    endObject: Option<U64>,
    softSuspended: bool,
    publishDoneAtEnd: bool)
  {
    function WithLocationFilter(filter: LocationFilter, largest: Option<Location>): SubscriptionState {
      var end := filter.EndLocation();
      this.(
        filter := filter,
        start := filter.StartLocation(largest),
        endGroup := if end.Some? then Some(end.value.group) else None,
        endObject := if end.Some? && end.value.id != U64_MAX then Some(end.value.id) else None)
    }

    /** A live filter has no start until it is measured against the track. */
    function WithInitialFilter(filter: LocationFilter): SubscriptionState {
      var adopted := WithLocationFilter(filter, None);
      if filter.IsLive() then adopted.(start := None) else adopted
    }

    function WithLiveStart(largest: Option<Location>): SubscriptionState {
      if filter.IsLive() then this.(start := filter.StartLocation(largest)) else this
    }

    predicate IsPastEnd(location: Location) {
      endGroup.Some? &&
      (location.group > endGroup.value
       || (location.group == endGroup.value && endObject.Some? && location.id > endObject.value))
    }

    /** The checks in their order; `passes` is the answer of the Range Filters. */
    function VerdictOn(location: Location, passes: bool): Verdict {
      if start.Some? && location.Before(start.value) then BeforeStart
      else if IsPastEnd(location) then PastEnd
      else if !forward then NotForwarding
      else if !passes then Filtered
      else Deliver
    }

    /** Told by a soft switch to stop before group `boundary`. */
    function SuspendedAt(boundary: U64, publishDone: bool): SubscriptionState
      requires boundary > 0
    {
      var end := if endGroup.Some? && endGroup.value <= boundary - 1 then endGroup.value else boundary - 1;
      this.(
        softSuspended := true,
        endObject := if Some(end) != endGroup then None else endObject,
        endGroup := Some(end),
        publishDoneAtEnd := publishDone)
    }
  }

  const FRESH := SubscriptionState(true, NoFilter, None, None, None, false, false)

  /** The Object is not before the start, and not past the end. */
  ghost predicate InWindow(state: SubscriptionState, l: Location) {
    && (state.start.Some? ==> state.start.value.AtMost(l))
    && (state.endGroup.Some? ==> l.group <= state.endGroup.value)
    && (state.endGroup == Some(l.group) && state.endObject.Some? ==> l.id <= state.endObject.value)
  }

  /**
   Which refusal an Object gets: the window comes first, whatever Forward State and Range
   Filters say, then Forward State, then the Range Filters.
   */
  lemma VerdictExactly(state: SubscriptionState, l: Location, passes: bool)
    ensures
      var verdict := state.VerdictOn(l, passes);
      var started := state.start.None? || state.start.value.AtMost(l);
      && (verdict == BeforeStart <==> !started)
      && (verdict == PastEnd <==> started && !InWindow(state, l))
      && (verdict == NotForwarding <==> InWindow(state, l) && !state.forward)
      && (verdict == Filtered <==> InWindow(state, l) && state.forward && !passes)
      && (verdict == Deliver <==> InWindow(state, l) && state.forward && passes)
  {
  }

  /** A filter delivers exactly what lies between its start and its end. */
  lemma FilterWindow(state: SubscriptionState, filter: LocationFilter, largest: Option<Location>, l: Location, passes: bool)
    ensures
      var verdict := state.WithLocationFilter(filter, largest).VerdictOn(l, passes);
      var start, end := filter.StartLocation(largest), filter.EndLocation();
      && (verdict == Deliver <==>
            && (start.Some? ==> start.value.AtMost(l)) && (end.Some? ==> l.AtMost(end.value))
            && state.forward && passes)
      && (verdict == BeforeStart <==> start.Some? && l.Before(start.value))
      && (verdict == PastEnd <==> end.Some? && end.value.Before(l) && (start.Some? ==> start.value.AtMost(l)))
  {
  }

  /**
   What a filter passes, in its own terms: from a Location on, up to the end of a group or
   a Location, the last groups of the track and those to come, or what comes after its
   largest Object. At the end of the number range the last group, or the largest Object
   itself, still passes.
   */
  ghost predicate PassedBy(filter: LocationFilter, largest: Option<Location>, l: Location) {
    match filter
    case NoFilter => true
    case RelativeStart(back) =>
      largest.None? || l.group + back > largest.value.group || l.group == U64_MAX
    case AbsoluteStart(start) => l.group > start.group || (l.group == start.group && l.id >= start.id)
    case AbsoluteStartGroupEnd(start, endGroup) =>
      (l.group > start.group || (l.group == start.group && l.id >= start.id)) && l.group <= endGroup
    case AbsoluteRange(start, end) =>
      && (l.group > start.group || (l.group == start.group && l.id >= start.id))
      && (l.group < end.group || (l.group == end.group && l.id <= end.id))
    case NextObject =>
      || largest.None? || l.group > largest.value.group
      || (l.group == largest.value.group && (l.id > largest.value.id || l.id == U64_MAX))
  }

  /** Start and end together are what the filter means. */
  lemma FilterPasses(state: SubscriptionState, filter: LocationFilter, largest: Option<Location>, l: Location)
    ensures InWindow(state.WithLocationFilter(filter, largest), l) <==> PassedBy(filter, largest, l)
  {
  }

  /** A live filter adopted first and measured later ends up as if it had been measured at once. */
  lemma MeasuredLater(state: SubscriptionState, filter: LocationFilter, largest: Option<Location>, l: Location)
    ensures state.WithInitialFilter(filter).WithLiveStart(largest) == state.WithLocationFilter(filter, largest)
    ensures filter.IsLive() ==> state.WithInitialFilter(filter).start.None? && InWindow(state.WithInitialFilter(filter), l)
    ensures !state.filter.IsLive() ==> state.WithLiveStart(largest) == state
    ensures !filter.IsLive() ==> state.WithInitialFilter(filter) == state.WithLocationFilter(filter, largest)
  {
  }

  /** A suspension only ever brings the end forward, and to before the boundary. */
  lemma SuspensionNeverExtends(state: SubscriptionState, boundary: U64, publishDone: bool, l: Location)
    requires boundary > 0
    ensures state.IsPastEnd(l) ==> state.SuspendedAt(boundary, publishDone).IsPastEnd(l)
    ensures state.SuspendedAt(boundary, publishDone).IsPastEnd(l) <==> state.IsPastEnd(l) || l.group >= boundary
  {
  }
}
