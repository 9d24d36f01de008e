/**
 Remembers which Objects of a track have been ingested, so that an Object served by
 several publishers is forwarded once.

 A ring of slots holds one group each; within a slot Object IDs are bits, inline up to
 256 and otherwise in a circular window over the newest 4096. `history` is every
 Location the detector was ever asked about, and the answer to each question is pinned
 down by it: a Location is reported exactly when it was asked about before, no newer
 group of its slot has been, and no ID 4096 or more above it in its group has been.
 */
module SeenObjects {
  import opened Locations
  import opened BitWords

  const INLINE_BITS := 256
  const INLINE_WORDS := 4
  const WINDOW_BITS := 4096
  const WINDOW_WORDS := 64

  lemma SamePosition(a: nat, b: nat)
    requires a <= b < a + WINDOW_BITS && a % WINDOW_BITS == b % WINDOW_BITS
    ensures a == b
  {
  }

  /** The IDs of one group, as bits. `ids` is every ID ever recorded, forgotten ones included. */
  class GroupBits {
    /** Whether the group has outgrown the inline bitmap. */
    var window: bool
    /** The top of the window. */
    var high: U64
    var words: array<bv64>
    ghost var ids: set<U64>

    ghost predicate Valid()
      reads this, words
    {
      && words.Length == (if window then WINDOW_WORDS else INLINE_WORDS)
      && (if window then WindowAgrees() else InlineAgrees())
    }

    ghost predicate InlineAgrees()
      reads this, words
      requires words.Length == INLINE_WORDS
    {
      && (forall id :: id in ids ==> id < INLINE_BITS)
      && (forall id: U64 :: id < INLINE_BITS ==> (Bit(words[..], id) <==> id in ids))
    }

    ghost predicate WindowAgrees()
      reads this, words
      requires words.Length == WINDOW_WORDS
    {
      && (forall id :: id in ids ==> id <= high)
      && (high in ids || high == INLINE_BITS - 1)
      && (forall id: U64 :: id <= high < id + WINDOW_BITS ==> (Bit(words[..], id % WINDOW_BITS) <==> id in ids))
    }

    /** Starts a group off with its first Object recorded. */
    constructor (first: U64)
      ensures Valid() && ids == {first} && fresh(words)
    {
      if first < INLINE_BITS {
        window, high := false, 0;
        words := new bv64[INLINE_WORDS](_ => 0);
      } else {
        window, high := true, first;
        words := new bv64[WINDOW_WORDS](_ => 0);
      }
      ids := {first};
      new;
      ZeroHasNoBits(words[..]);
      SetBit(words, if window then first % WINDOW_BITS else first);
      if window {
        forall id: U64 | id <= high < id + WINDOW_BITS && id % WINDOW_BITS == first % WINDOW_BITS ensures id == first {
          SamePosition(id, first);
        }
      }
    }

    /** Records `id` and reports whether it was remembered. */
    method TestAndSet(id: U64) returns (seen: bool)
      requires Valid()
      modifies this, words
      ensures Valid() && ids == old(ids) + {id} && (words == old(words) || fresh(words))
      ensures seen <==> id in old(ids) && forall m :: m in old(ids) ==> m < id + WINDOW_BITS
    {
      if !window {
        if id < INLINE_BITS {
          seen := BitIsSet(words, id);
          SetBit(words, id);
          ids := ids + {id};
          return;
        }
        Promote();
      }
      seen := WindowTestAndSet(id);
    }

    /** Moves the inline bitmap into a window. */
    method Promote()
      requires Valid() && !window
      modifies this
      ensures Valid() && window && high == INLINE_BITS - 1 && ids == old(ids) && fresh(words)
    {
      var wide := Widened();
      window, high, words := true, INLINE_BITS - 1, wide;
    }

    /** The inline bits, copied one by one into the window's words. */
    method Widened() returns (wide: array<bv64>)
      requires Valid() && !window
      ensures fresh(wide) && wide.Length == WINDOW_WORDS
      ensures forall id: U64 :: id < INLINE_BITS ==> (Bit(wide[..], id % WINDOW_BITS) <==> id in ids)
    {
      ghost var inline := words[..];
      wide := new bv64[WINDOW_WORDS](_ => 0);
      ZeroHasNoBits(wide[..]);
      for id := 0 to INLINE_BITS
        invariant words[..] == inline
        invariant forall k: nat :: k < WINDOW_BITS ==> (Bit(wide[..], k) <==> k < id && Bit(inline, k))
      {
        var isSet := BitIsSet(words, id);
        if isSet {
          SetBit(wide, id % WINDOW_BITS);
        }
      }
    }

    /** The circular window: slides up to a new highest ID, or looks up one within it. */
    method WindowTestAndSet(id: U64) returns (seen: bool)
      requires Valid() && window
      modifies this, words
      ensures Valid() && ids == old(ids) + {id} && words == old(words)
      ensures seen <==> id in old(ids) && forall m :: m in old(ids) ==> m < id + WINDOW_BITS
    {
      if id > high {
        Slide(id);
        return false;
      }
      if high - id >= WINDOW_BITS {
        ids := ids + {id};
        return false;
      }
      seen := BitIsSet(words, id % WINDOW_BITS);
      SetBit(words, id % WINDOW_BITS);
      forall k: U64 | k <= high < k + WINDOW_BITS && k % WINDOW_BITS == id % WINDOW_BITS ensures k == id {
        SamePosition(if k < id then k else id, if k < id then id else k);
      }
      ids := ids + {id};
    }

    method Slide(id: U64)
      requires Valid() && window && id > high
      modifies this, words
      ensures Valid() && window && ids == old(ids) + {id} && words == old(words)
    {
      if id - high >= WINDOW_BITS {
        Zero();
      } else {
        ClearDisplaced(id);
      }
      SetBit(words, id % WINDOW_BITS);
      forall k: U64 | k <= id < k + WINDOW_BITS && k % WINDOW_BITS == id % WINDOW_BITS ensures k == id {
        SamePosition(k, id);
      }
      high, ids := id, ids + {id};
    }

    method Zero()
      modifies words
      ensures forall k: nat :: k < 64 * words.Length ==> !Bit(words[..], k)
    {
      for i := 0 to words.Length
        invariant forall k :: 0 <= k < i ==> words[k] == 0
      {
        words[i] := 0;
      }
      ZeroHasNoBits(words[..]);
    }

    /** Hands the positions of the IDs above `high` up to `id` over to them. */
    method ClearDisplaced(id: U64)
      requires Valid() && window && high < id < high + WINDOW_BITS
      modifies words
      ensures words.Length == WINDOW_WORDS
      ensures forall k: U64 :: k <= id < k + WINDOW_BITS ==> (Bit(words[..], k % WINDOW_BITS) <==> k in ids)
    {
      for displaced := high + 1 to id + 1
        invariant forall k: U64 :: k < displaced && id < k + WINDOW_BITS ==> (Bit(words[..], k % WINDOW_BITS) <==> k in ids)
      {
        ClearBit(words, displaced % WINDOW_BITS);
        forall k: U64 | k <= displaced && id < k + WINDOW_BITS && k % WINDOW_BITS == displaced % WINDOW_BITS
          ensures k == displaced
        {
          SamePosition(k, displaced);
        }
      }
    }
  }

  datatype GroupSlot = Vacant | Holding(group: U64, bits: GroupBits)

  /** The IDs of `group` among the Locations asked about. */
  ghost function IdsOf(history: seq<Location>, group: U64): set<U64> {
    set l | l in history && l.group == group :: l.id
  }

  /** No group asked about that shares a slot with `group` is newer. */
  ghost predicate NewestInSlot(history: seq<Location>, group: U64, slots: nat)
    requires slots > 0
  {
    forall l :: l in history && l.group % slots == group % slots ==> l.group <= group
  }

  /**
   Whether `location`, asked about after `history`, is reported as a duplicate. Nothing new
   is, and there are two ways for something old to be missed: a newer group of its slot,
   and an ID of its group 4096 or more above it.
   */
  ghost predicate Reported(history: seq<Location>, slots: nat, location: Location) {
    && slots > 0
    && location in history
    && NewestInSlot(history, location.group, slots)
    && forall l :: l in history && l.group == location.group ==> l.id < location.id + WINDOW_BITS
  }

  /** What one more question changes for a group. */
  lemma AskedAbout(history: seq<Location>, location: Location, slots: nat, group: U64)
    requires slots > 0
    ensures IdsOf(history + [location], group) ==
            if group == location.group then IdsOf(history, group) + {location.id} else IdsOf(history, group)
    ensures NewestInSlot(history + [location], group, slots) <==>
            NewestInSlot(history, group, slots) && (location.group % slots == group % slots ==> location.group <= group)
  {
    var after := history + [location];
    assert location in after && forall l :: l in history ==> l in after;
  }

  class Detector {
    var slots: seq<GroupSlot>
    ghost var history: seq<Location>

    ghost function Footprint(): set<object>
      reads this
    {
      {this} + (set i | 0 <= i < |slots| && slots[i].Holding? :: slots[i].bits)
    }

    ghost function Words(): set<object>
      reads this, Footprint()
    {
      set i | 0 <= i < |slots| && slots[i].Holding? :: slots[i].bits.words
    }

    /** The slot describes the newest group of its own that was asked about. */
    ghost predicate SlotAgrees(i: nat)
      requires i < |slots|
      reads this, Footprint()
    {
      match slots[i]
      case Vacant => forall l :: l in history ==> l.group % |slots| != i
      case Holding(group, bits) =>
        && group % |slots| == i && NewestInSlot(history, group, |slots|)
        && bits.ids == IdsOf(history, group) && bits.ids != {}
    }

    /** No two slots share a bitmap. */
    ghost predicate Separate()
      reads this, Footprint()
    {
      forall i, j :: 0 <= i < j < |slots| && slots[i].Holding? && slots[j].Holding? ==>
        slots[i].bits != slots[j].bits && slots[i].bits.words != slots[j].bits.words
    }

    ghost predicate Valid()
      reads this, Footprint(), Words()
    {
      && Separate()
      && (forall i :: 0 <= i < |slots| && slots[i].Holding? ==> slots[i].bits.Valid())
      && (forall i :: 0 <= i < |slots| ==> SlotAgrees(i))
    }

    /** With no slots, detection is off. */
    constructor (retainedGroups: nat)
      ensures Valid() && |slots| == retainedGroups && history == []
      ensures Footprint() == {this} && Words() == {}
    {
      slots := seq(retainedGroups, _ => Vacant);
      history := [];
    }

    /** Records `location` and reports whether it had already been seen. */
    method IsDuplicate(location: Location) returns (duplicate: bool)
      requires Valid()
      modifies Footprint(), Words()
      ensures Valid() && history == old(history) + [location] && |slots| == old(|slots|)
      ensures duplicate <==> Reported(old(history), |slots|, location)
      ensures fresh(Footprint() - old(Footprint())) && fresh(Words() - old(Words()))
    {
      if |slots| == 0 {
        history := history + [location];
        return false;
      }
      var slot := slots[location.group % |slots|];
      if slot.Vacant? || slot.group < location.group {
        Claim(location);
        duplicate := false;
      } else if slot.group == location.group {
        duplicate := Record(location);
      } else {
        Ignore(location);
        duplicate := false;
      }
    }

    /** A newer group takes the slot, evicting what it held. */
    method Claim(location: Location)
      requires Valid() && |slots| > 0
      requires
        var slot := slots[location.group % |slots|];
        slot.Vacant? || slot.group < location.group
      modifies this
      ensures Valid() && history == old(history) + [location] && |slots| == old(|slots|)
      ensures !Reported(old(history), |slots|, location)
      ensures fresh(Footprint() - old(Footprint())) && fresh(Words() - old(Words()))
    {
      var index := location.group % |slots|;
      assert SlotAgrees(index);
      assert forall l :: l in history ==> l.group != location.group;
      assert IdsOf(history, location.group) == {};
      var bits := new GroupBits(location.id);
      slots := slots[index := Holding(location.group, bits)];
      history := history + [location];
      forall i | 0 <= i < |slots| ensures SlotAgrees(i) {
        assert old(SlotAgrees(i));
        if slots[i].Holding? {
          AskedAbout(old(history), location, |slots|, slots[i].group);
        }
      }
    }

    /** The slot already describes the group: the bitmap has the answer. */
    method Record(location: Location) returns (duplicate: bool)
      requires Valid() && |slots| > 0
      requires
        var slot := slots[location.group % |slots|];
        slot.Holding? && slot.group == location.group
      modifies Footprint(), Words()
      ensures Valid() && history == old(history) + [location] && |slots| == old(|slots|)
      ensures duplicate <==> Reported(old(history), |slots|, location)
      ensures fresh(Footprint() - old(Footprint())) && fresh(Words() - old(Words()))
    {
      var index := location.group % |slots|;
      assert SlotAgrees(index);
      var held := slots[index].bits;
      RecordedIds(history, location);
      duplicate := held.TestAndSet(location.id);
      forall i | 0 <= i < |slots| && i != index && slots[i].Holding? ensures slots[i].bits.Valid() {
        assert slots[i].bits != held && slots[i].bits.words != old(held.words);
      }
      history := history + [location];
      forall i | 0 <= i < |slots| ensures SlotAgrees(i) {
        assert old(SlotAgrees(i));
        if slots[i].Holding? {
          AskedAbout(old(history), location, |slots|, slots[i].group);
          assert i != index ==> slots[i].bits != held;
        }
      }
    }

    /** An older group leaves the newer one that holds its slot alone. */
    method Ignore(location: Location)
      requires Valid() && |slots| > 0
      requires
        var slot := slots[location.group % |slots|];
        slot.Holding? && slot.group > location.group
      modifies `history
      ensures Valid() && history == old(history) + [location]
      ensures !Reported(old(history), |slots|, location)
    {
      var index := location.group % |slots|;
      assert SlotAgrees(index);
      ghost var id :| id in IdsOf(history, slots[index].group);
      assert Location(slots[index].group, id) in history;
      history := history + [location];
      forall i | 0 <= i < |slots| ensures SlotAgrees(i) {
        assert old(SlotAgrees(i));
        if slots[i].Holding? {
          AskedAbout(old(history), location, |slots|, slots[i].group);
        }
      }
    }
  }

  lemma RecordedIds(history: seq<Location>, location: Location)
    ensures location.id in IdsOf(history, location.group) <==> location in history
    ensures (forall m :: m in IdsOf(history, location.group) ==> m < location.id + WINDOW_BITS) <==>
            (forall l :: l in history && l.group == location.group ==> l.id < location.id + WINDOW_BITS)
  {
    forall l | l in history && l.group == location.group ensures l.id in IdsOf(history, location.group) {}
  }

  /** A whole run: what a new detector answers about each of `locations` in turn. */
  method Answers(retainedGroups: nat, locations: seq<Location>) returns (duplicates: seq<bool>)
    ensures |duplicates| == |locations|
    ensures forall k :: 0 <= k < |locations| ==>
              (duplicates[k] <==> Reported(locations[..k], retainedGroups, locations[k]))
  {
    var detector := new Detector(retainedGroups);
    duplicates := [];
    for k := 0 to |locations|
      invariant detector.Valid() && |detector.slots| == retainedGroups && detector.history == locations[..k]
      invariant fresh(detector.Footprint()) && fresh(detector.Words())
      invariant |duplicates| == k
      invariant forall i :: 0 <= i < k ==> (duplicates[i] <==> Reported(locations[..i], retainedGroups, locations[i]))
    {
      var duplicate := detector.IsDuplicate(locations[k]);
      duplicates := duplicates + [duplicate];
      assert locations[..k + 1] == locations[..k] + [locations[k]];
    }
  }

  /** An ID is remembered until another exactly 4096 above it has been asked about. */
  lemma ForgottenAt4096(group: U64, slots: nat, ahead: U64)
    requires slots > 0
    ensures
      Reported([Location(group, 0), Location(group, ahead)], slots, Location(group, 0)) <==> ahead < WINDOW_BITS
  {
    var history := [Location(group, 0), Location(group, ahead)];
    assert history[0] in history && history[1] in history;
  }
}
