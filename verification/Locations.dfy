/**
 Object identity on a track: 64-bit integers, Locations and their order.

 A Location orders by group first and by Object ID within the group. The Location
 after the last Object ID of a group is the first of the next group, so all
 Locations form one line.
 */
module Locations {
  datatype Option<+T> = None | Some(value: T)

  datatype Result<+T, +E> = Ok(value: T) | Err(error: E)

  const U64_MAX := 0xFFFF_FFFF_FFFF_FFFF

  type U64 = n: int | 0 <= n <= U64_MAX

  type U8 = n: int | 0 <= n < 256

  datatype Location = Location(group: U64, id: U64) {
    predicate AtMost(other: Location) {
      group < other.group || (group == other.group && id <= other.id)
    }

    predicate Before(other: Location) {
      group < other.group || (group == other.group && id < other.id)
    }

    /** The Location right after this one, if there is one. */
    function Next(): (r: Option<Location>)
      ensures r.None? <==> this == MaxLocation()
      ensures r.Some? ==> Before(r.value)
    {
      if id < U64_MAX then Some(Location(group, id + 1))
      else if group < U64_MAX then Some(Location(group + 1, 0))
      else None
    }
  }

  function MaxLocation(): Location {
    Location(U64_MAX, U64_MAX)
  }

  function Min(a: Location, b: Location): Location {
    if a.AtMost(b) then a else b
  }

  function Max(a: Location, b: Location): Location {
    if a.AtMost(b) then b else a
  }
}
