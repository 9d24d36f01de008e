/**
 The priority of a QUIC stream from the scheduling parameters of its objects: the signed
 32-bit range is cut into one band for each pair of subscriber and publisher priority,
 and the group decides the place within the band.
 */
module StreamPriority {
  import opened Locations

  const BAND: nat := 65536
  const I32_MIN: int := -0x8000_0000
  const I32_MAX: int := 0x7FFF_FFFF

  type I32 = n: int | I32_MIN <= n <= I32_MAX

  datatype GroupOrder = Original | Ascending | Descending

  /** A larger number is served first. The 64-bit value always fits the 32 bits it is cast to. */
  function Priority(subscriber: U8, publisher: U8, order: GroupOrder, group: U64): (p: I32) {
    var index := (255 - subscriber) * 256 + (255 - publisher);
    var bandMin := I32_MIN + index * BAND;
    var slot := group % BAND;
    match order
    case Ascending => bandMin + BAND - 1 - slot
    case Original => bandMin + BAND - 1 - slot
    case Descending => bandMin + slot
  }

  /** Which of two groups goes first under an order, by their places in the band. */
  predicate GoesFirst(order: GroupOrder, a: U64, b: U64) {
    if order.Descending? then a % BAND > b % BAND else a % BAND < b % BAND
  }

  function Place(order: GroupOrder, group: U64): (place: nat)
    ensures place < BAND
  {
    if order.Descending? then group % BAND else BAND - 1 - group % BAND
  }

  /** The band and the place in it, read back from the number. */
  lemma Unpacks(subscriber: U8, publisher: U8, order: GroupOrder, group: U64)
    ensures
      var offset := Priority(subscriber, publisher, order, group) - I32_MIN;
      && 255 - offset / BAND / 256 == subscriber
      && 255 - offset / BAND % 256 == publisher
      && offset % BAND == Place(order, group)
  {
  }

  /**
   Streams are served by subscriber priority, then publisher priority, lower numbers
   first, whatever their groups and orders.
   */
  lemma BandsDecide(s: U8, p: U8, order: GroupOrder, g: U64, s': U8, p': U8, order': GroupOrder, g': U64)
    requires s < s' || (s == s' && p < p')
    ensures Priority(s, p, order, g) > Priority(s', p', order', g')
  {
  }

  /** Under one order, the whole ranking: it is the lexicographic one. */
  lemma RanksLexicographically(order: GroupOrder, s: U8, p: U8, g: U64, s': U8, p': U8, g': U64)
    ensures Priority(s, p, order, g) > Priority(s', p', order, g') <==>
      s < s' || (s == s' && (p < p' || (p == p' && GoesFirst(order, g, g'))))
    ensures Priority(s, p, order, g) == Priority(s', p', order, g') <==>
      s == s' && p == p' && g % BAND == g' % BAND
  {
  }

  /** Within one aligned block of groups the group order is followed. */
  lemma FollowsGroupOrder(order: GroupOrder, s: U8, p: U8, g: U64, g': U64)
    requires g / BAND == g' / BAND
    ensures Priority(s, p, order, g) > Priority(s, p, order, g') <==> if order.Descending? then g > g' else g < g'
  {
  }

  /** From one block to the next it is not: the last group of a block and the first of the next trade places. */
  lemma TurnsOverAtABlock(order: GroupOrder, s: U8, p: U8, block: nat)
    requires (block + 1) * BAND <= U64_MAX
    ensures
      var last, first := (block + 1) * BAND - 1, (block + 1) * BAND;
      Priority(s, p, order, last) > Priority(s, p, order, first) <==> order.Descending?
  {
  }

  /** Streams of different orders share a number exactly where one counts up and the other down past each other. */
  lemma OrdersMeet(s: U8, p: U8, up: GroupOrder, g: U64, s': U8, p': U8, g': U64)
    requires !up.Descending?
    ensures Priority(s, p, up, g) == Priority(s', p', Descending, g') <==>
      s == s' && p == p' && g % BAND + g' % BAND == BAND - 1
  {
  }
}
