/**
 One subscription's downstream streams.

 Objects of a subgroup go out on one stream, each Object ID as a delta from the last one
 written to that stream. Objects are skipped for many reasons, streams open late, and
 are closed or reset; what a receiver decodes must still be the IDs that were sent.
 */
module Delivery {
  import opened Locations
  import opened SubscriptionStates

  datatype StreamId = StreamId(group: U64, subgroup: Option<U64>)

  /** `firstObject` is the claim that the stream starts with the subgroup's first Object. */
  datatype Header = Header(stream: StreamId, firstObject: bool) {
    function ForMidSubgroup(): Header { this.(firstObject := false) }
  }

  // ---- The encoding ----

  function Delta(previous: Option<U64>, id: U64): U64
    requires previous.Some? ==> previous.value < id
  {
    match previous
    case None => id
    case Some(p) => id - p - 1
  }

  /** `delta` is what `id` is written as after `previous`. */
  predicate Follows(previous: Option<U64>, delta: U64, id: U64) {
    if previous.Some? then id == previous.value + delta + 1 else id == delta
  }

  /** What a receiver makes of the deltas of one stream. */
  function Decode(deltas: seq<U64>): (ids: seq<nat>)
    ensures |ids| == |deltas|
  {
    if deltas == [] then []
    else
      var ids := Decode(deltas[..|deltas| - 1]);
      var delta := deltas[|deltas| - 1];
      ids + [if ids == [] then delta else ids[|ids| - 1] + delta + 1]
  }

  /**
   One downstream stream: what was written to it, the IDs meant by that, the ID the
   encoder believed to be the last one written when the stream opened, and the first
   ID of the subgroup the relay saw.
   */
  datatype Downstream = Downstream(header: Header, deltas: seq<U64>, ids: seq<U64>, stale: Option<U64>, subgroupFirst: U64) {
    /** The last ID the encoder goes by. */
    function Last(): Option<U64> {
      if ids == [] then stale else Some(ids[|ids| - 1])
    }

    /** Each delta is relative to the ID before it, the first one to the stale ID if there was one. */
    ghost predicate Sound() {
      && |deltas| == |ids|
      && (forall k {:trigger deltas[k]} :: 0 <= k < |ids| ==> Follows(if k == 0 then stale else Some(ids[k - 1]), deltas[k], ids[k]))
      && (header.firstObject && ids != [] ==> ids[0] == subgroupFirst)
    }
  }

  /** A receiver reads the IDs that were meant exactly when the stream did not open with a stale last ID. */
  lemma {:induction false} SoundDecodes(d: Downstream)
    requires d.Sound() && d.ids != []
    ensures Decode(d.deltas) == d.ids <==> d.stale.None?
  {
    DecodesFrom(d.deltas, d.ids, d.stale);
    if d.stale.Some? {
      FirstDecoded(d.deltas);
      assert Follows(d.stale, d.deltas[0], d.ids[0]);
    }
  }

  lemma {:induction false} FirstDecoded(deltas: seq<U64>)
    requires deltas != []
    ensures Decode(deltas)[0] == deltas[0]
    decreases |deltas|
  {
    if |deltas| > 1 {
      FirstDecoded(deltas[..|deltas| - 1]);
    }
  }

  lemma {:induction false} DecodesFrom(deltas: seq<U64>, ids: seq<U64>, stale: Option<U64>)
    requires |deltas| == |ids|
    requires forall k {:trigger deltas[k]} :: 0 <= k < |ids| ==> Follows(if k == 0 then stale else Some(ids[k - 1]), deltas[k], ids[k])
    ensures stale.None? ==> Decode(deltas) == ids
    decreases |ids|
  {
    if ids != [] {
      var n := |ids| - 1;
      DecodesFrom(deltas[..n], ids[..n], stale);
      assert ids == ids[..n] + [ids[n]];
      assert Follows(if n == 0 then stale else Some(ids[n - 1]), deltas[n], ids[n]);
    }
  }

  /** What upstream has sent on a stream so far. */
  datatype Upstream = Upstream(first: U64, last: U64)

  /**
   What a subscription keeps about its streams. `streams` are the connection's send
   streams of the subscription. The last three are bookkeeping the relay does not do:
   what upstream has sent, the streams that were closed, reset or stopped, and how often
   the peer stopped one.
   */
  datatype Book = Book(
    lastIds: map<StreamId, Option<U64>>,
    pendingHeader: Option<Header>,
    skippedHeaders: map<StreamId, Header>,
    streams: map<StreamId, Downstream>,
    openedCount: nat,
    upstream: map<StreamId, Upstream>,
    ended: seq<Downstream>,
    peerStops: nat)
  {
    function LastId(s: StreamId): Option<U64> {
      if s in lastIds then lastIds[s] else None
    }

    function Heard(s: StreamId, id: U64): Book {
      this.(upstream := upstream[s := Upstream(if s in upstream then upstream[s].first else id, id)])
    }

    /** A header handled: the stream is open, and counted. */
    function Open(h: Header): Book
      requires h.stream in upstream
    {
      this.(
        streams := if h.stream in streams then streams
                   else streams[h.stream := Downstream(h, [], [], LastId(h.stream), upstream[h.stream].first)],
        openedCount := openedCount + 1)
    }

    /** A stream opened ahead of its next Object. */
    function OpenEmpty(h: Header): Book
      requires h.stream in upstream
    {
      Open(h).(lastIds := lastIds[h.stream := None])
    }

    function Write(s: StreamId, id: U64): Book
      requires s in streams && (LastId(s).Some? ==> LastId(s).value < id)
    {
      var d := streams[s];
      this.(
        streams := streams[s := d.(deltas := d.deltas + [Delta(LastId(s), id)], ids := d.ids + [id])],
        lastIds := lastIds[s := Some(id)])
    }

    /** The connection lets go of a stream. */
    function Drop(s: StreamId): Book {
      if s in streams then this.(streams := streams - {s}, ended := ended + [streams[s]]) else this
    }

    /** A stream closed or reset, its last ID forgotten. */
    function End(s: StreamId): Book {
      Drop(s).(lastIds := lastIds - {s})
    }

    function Skip(header: Option<Header>): Book {
      if header.Some? then this.(skippedHeaders := skippedHeaders[header.value.stream := header.value]) else this
    }

    // ---- What every operation keeps ----

    ghost predicate StreamValid(s: StreamId)
      requires s in streams
    {
      && streams[s].Sound() && streams[s].header.stream == s
      && s in upstream && s in lastIds && lastIds[s] == streams[s].Last()
      && (streams[s].ids == [] ==> !streams[s].header.firstObject)
    }

    ghost predicate StreamsValid() {
      forall s :: s in streams ==> StreamValid(s)
    }

    ghost predicate EndedValid() {
      forall i :: 0 <= i < |ended| ==> ended[i].Sound()
    }

    /** No recorded ID is ahead of upstream. */
    ghost predicate LastIdsValid() {
      forall s :: s in lastIds && lastIds[s].Some? ==> s in upstream && lastIds[s].value <= upstream[s].last
    }

    /** A header still pending is for a stream nothing was sent on. */
    ghost predicate HeadersValid() {
      && (pendingHeader.Some? ==>
            var s := pendingHeader.value.stream;
            s in upstream && s !in streams && LastId(s).None?)
      && (forall s :: s in skippedHeaders ==> s in upstream && skippedHeaders[s].stream == s)
    }

    ghost predicate CountValid() {
      openedCount == |streams.Keys| + |ended|
    }

    ghost predicate NothingStale() {
      && (forall s :: s in lastIds && lastIds[s].Some? ==> s in streams)
      && (forall s :: s in streams ==> streams[s].stale.None?)
      && (forall i :: 0 <= i < |ended| ==> ended[i].stale.None?)
    }

    ghost predicate Valid() {
      && StreamsValid() && EndedValid() && LastIdsValid() && HeadersValid() && CountValid()
      && (peerStops > 0 || NothingStale())
    }
  }

  lemma HeardIsValid(b: Book, s: StreamId, id: U64)
    requires b.Valid() && (s in b.upstream ==> b.upstream[s].last < id)
    ensures b.Heard(s, id).Valid()
  {
    var b' := b.Heard(s, id);
    forall o | o in b'.streams ensures b'.StreamValid(o) {
      assert b.StreamValid(o);
    }
  }

  lemma SkipIsValid(b: Book, header: Option<Header>)
    requires b.Valid() && (header.Some? ==> header.value.stream in b.upstream)
    ensures b.Skip(header).Valid()
  {
    var b' := b.Skip(header);
    forall o | o in b'.streams ensures b'.StreamValid(o) {
      assert b.StreamValid(o);
    }
  }

  lemma NoHeadersIsValid(b: Book, skipped: map<StreamId, Header>)
    requires b.Valid() && forall s :: s in skipped ==> s in b.skippedHeaders && skipped[s] == b.skippedHeaders[s]
    ensures b.(pendingHeader := None, skippedHeaders := skipped).Valid()
  {
    var b' := b.(pendingHeader := None, skippedHeaders := skipped);
    forall o | o in b'.streams ensures b'.StreamValid(o) {
      assert b.StreamValid(o);
    }
  }

  // Closing, resetting or losing a stream.

  lemma DropKeepsStreams(b: Book, s: StreamId)
    requires b.StreamsValid() && b.EndedValid()
    ensures b.Drop(s).StreamsValid() && b.Drop(s).EndedValid()
    ensures b.End(s).StreamsValid() && b.End(s).EndedValid()
  {
    if s in b.streams {
      assert b.StreamValid(s);
    }
    forall o | o in b.streams && o != s ensures b.StreamValid(o) {}
  }

  lemma DropKeepsCount(b: Book, s: StreamId)
    requires b.CountValid()
    ensures b.Drop(s).CountValid() && b.End(s).CountValid()
  {
    if s in b.streams {
      assert b.streams.Keys == b.Drop(s).streams.Keys + {s};
    }
  }

  lemma EndKeepsNothingStale(b: Book, s: StreamId)
    requires b.NothingStale()
    ensures b.End(s).NothingStale()
  {
  }

  lemma DropIsValid(b: Book, s: StreamId)
    requires b.Valid() && b.peerStops > 0
    ensures b.Drop(s).Valid()
  {
    DropKeepsStreams(b, s);
    DropKeepsCount(b, s);
  }

  lemma EndIsValid(b: Book, s: StreamId)
    requires b.Valid()
    ensures b.End(s).Valid()
  {
    DropKeepsStreams(b, s);
    DropKeepsCount(b, s);
    if b.NothingStale() {
      EndKeepsNothingStale(b, s);
    }
  }

  // Writing to a stream that is already open.

  lemma WriteKeepsStreams(b: Book, s: StreamId, id: U64)
    requires b.StreamsValid() && s in b.streams && (b.LastId(s).Some? ==> b.LastId(s).value < id)
    ensures b.Write(s, id).StreamsValid() && b.Write(s, id).streams.Keys == b.streams.Keys
  {
    assert b.StreamValid(s);
  }

  lemma WriteKeepsTheRest(b: Book, s: StreamId, id: U64)
    requires b.EndedValid() && b.LastIdsValid() && b.HeadersValid() && b.pendingHeader.None? && s in b.streams
    requires s in b.upstream && b.upstream[s].last == id && (b.LastId(s).Some? ==> b.LastId(s).value < id)
    ensures b.Write(s, id).EndedValid() && b.Write(s, id).LastIdsValid() && b.Write(s, id).HeadersValid()
  {
  }

  lemma WriteKeepsNothingStale(b: Book, s: StreamId, id: U64)
    requires b.NothingStale() && s in b.streams && (b.LastId(s).Some? ==> b.LastId(s).value < id)
    ensures b.Write(s, id).NothingStale()
  {
  }

  lemma WriteIsValid(b: Book, s: StreamId, id: U64)
    requires b.Valid() && b.pendingHeader.None? && s in b.streams
    requires s in b.upstream && b.upstream[s].last == id && (b.LastId(s).Some? ==> b.LastId(s).value < id)
    ensures b.Write(s, id).Valid()
  {
    WriteKeepsStreams(b, s, id);
    WriteKeepsTheRest(b, s, id);
    if b.NothingStale() {
      WriteKeepsNothingStale(b, s, id);
    }
  }

  // Opening a stream, and writing to it at once or not yet.

  lemma OpenKeepsStreams(b: Book, h: Header, id: U64)
    requires b.StreamsValid() && h.stream in b.upstream && h.stream !in b.streams
    requires b.LastId(h.stream).Some? ==> b.LastId(h.stream).value < id
    requires h.firstObject ==> b.upstream[h.stream].first == id
    ensures b.Open(h).Write(h.stream, id).StreamsValid()
    ensures b.Open(h).Write(h.stream, id).streams.Keys == b.streams.Keys + {h.stream}
  {
    var b' := b.Open(h).Write(h.stream, id);
    forall o | o in b'.streams && o != h.stream ensures b'.StreamValid(o) {
      assert b.StreamValid(o);
    }
    OpenedIsValid(b, h, id);
  }

  lemma OpenedIsValid(b: Book, h: Header, id: U64)
    requires h.stream in b.upstream && h.stream !in b.streams
    requires b.LastId(h.stream).Some? ==> b.LastId(h.stream).value < id
    requires h.firstObject ==> b.upstream[h.stream].first == id
    ensures h.stream in b.Open(h).Write(h.stream, id).streams && b.Open(h).Write(h.stream, id).StreamValid(h.stream)
  {
    var d := b.Open(h).Write(h.stream, id).streams[h.stream];
    assert d.deltas == [Delta(b.LastId(h.stream), id)] && d.ids == [id];
  }

  lemma OpenKeepsNothingStale(b: Book, h: Header, id: U64)
    requires b.NothingStale() && h.stream in b.upstream && h.stream !in b.streams
    ensures b.LastId(h.stream).None? && b.Open(h).Write(h.stream, id).NothingStale()
  {
  }

  lemma OpenKeepsTheRest(b: Book, h: Header, id: U64)
    requires b.EndedValid() && b.LastIdsValid() && b.HeadersValid() && b.pendingHeader.None?
    requires h.stream in b.upstream && h.stream !in b.streams
    requires b.upstream[h.stream].last == id && (b.LastId(h.stream).Some? ==> b.LastId(h.stream).value < id)
    ensures
      var b' := b.Open(h).Write(h.stream, id);
      b'.EndedValid() && b'.LastIdsValid() && b'.HeadersValid()
  {
  }

  lemma OpenAndWriteIsValid(b: Book, h: Header, id: U64)
    requires b.Valid() && b.pendingHeader.None? && h.stream in b.upstream && h.stream !in b.streams
    requires b.upstream[h.stream].last == id && (b.LastId(h.stream).Some? ==> b.LastId(h.stream).value < id)
    requires h.firstObject ==> b.upstream[h.stream].first == id
    ensures b.Open(h).Write(h.stream, id).Valid()
  {
    OpenKeepsStreams(b, h, id);
    OpenKeepsTheRest(b, h, id);
    if b.NothingStale() {
      OpenKeepsNothingStale(b, h, id);
    }
  }

  lemma OpenEmptyKeepsStreams(b: Book, h: Header)
    requires b.StreamsValid() && h.stream in b.upstream && h.stream !in b.streams && b.LastId(h.stream).None? && !h.firstObject
    ensures b.OpenEmpty(h).StreamsValid()
    ensures b.OpenEmpty(h).streams.Keys == b.streams.Keys + {h.stream}
  {
    var b' := b.OpenEmpty(h);
    forall o | o in b'.streams && o != h.stream ensures b'.StreamValid(o) {
      assert b.StreamValid(o);
    }
  }

  lemma OpenEmptyIsValid(b: Book, h: Header)
    requires b.Valid() && b.pendingHeader.None? && h.stream in b.upstream && h.stream !in b.streams
    requires b.LastId(h.stream).None? && !h.firstObject
    ensures b.OpenEmpty(h).Valid()
  {
    OpenEmptyKeepsStreams(b, h);
    OpenEmptyKeepsTheRest(b, h);
    if b.NothingStale() {
      OpenEmptyKeepsNothingStale(b, h);
    }
  }

  lemma OpenEmptyKeepsTheRest(b: Book, h: Header)
    requires b.EndedValid() && b.LastIdsValid() && b.HeadersValid() && b.pendingHeader.None? && b.CountValid()
    requires h.stream in b.upstream && h.stream !in b.streams
    ensures
      var b' := b.OpenEmpty(h);
      b'.EndedValid() && b'.LastIdsValid() && b'.HeadersValid() && b'.CountValid()
  {
    assert b.OpenEmpty(h).streams.Keys == b.streams.Keys + {h.stream};
  }

  lemma OpenEmptyKeepsNothingStale(b: Book, h: Header)
    requires b.NothingStale() && h.stream in b.upstream && h.stream !in b.streams
    ensures b.OpenEmpty(h).NothingStale()
  {
  }

  // Delivering an Object.

  /** The stream's first Object, with its header. */
  function ForwardFirst(b: Book, h: Header, id: U64, opens: bool): (Book, bool)
    requires h.stream in b.upstream
  {
    if opens then (b.OpenEmpty(h).Write(h.stream, id), true) else (b, false)
  }

  /** A later Object of a stream that is not open: its header was saved when it was skipped, or the track has it. */
  function ForwardMid(b: Book, s: StreamId, id: U64, active: Option<Header>, opens: bool): (Book, bool)
    requires s in b.upstream && (b.LastId(s).Some? ==> b.LastId(s).value < id)
    requires active.Some? ==> active.value.stream == s
    requires s in b.skippedHeaders ==> b.skippedHeaders[s].stream == s
  {
    var cached := if s in b.skippedHeaders then Some(b.skippedHeaders[s]) else active;
    var b := b.(skippedHeaders := b.skippedHeaders - {s});
    if cached.Some? && opens then (b.Open(cached.value.ForMidSubgroup()).Write(s, id), true) else (b, false)
  }

  /** An Object that passed every check: on its open stream, or on one opened for it now if that works. */
  function Forwarded(b: Book, s: StreamId, id: U64, header: Option<Header>, active: Option<Header>, opens: bool)
    : (r: (Book, bool))
    requires s in b.upstream && (b.LastId(s).Some? ==> b.LastId(s).value < id)
    requires (header.Some? ==> header.value.stream == s) && (active.Some? ==> active.value.stream == s)
    requires s in b.skippedHeaders ==> b.skippedHeaders[s].stream == s
  {
    var b := b.(pendingHeader := None);
    if header.Some? then ForwardFirst(b, header.value, id, opens)
    else if s in b.streams then (b.Write(s, id), true)
    else ForwardMid(b, s, id, active, opens)
  }

  lemma FirstWrite(b: Book, h: Header, id: U64)
    requires h.stream in b.upstream && h.stream !in b.streams && b.LastId(h.stream).None?
    ensures b.OpenEmpty(h).Write(h.stream, id) == b.Open(h).Write(h.stream, id)
  {
  }

  lemma ForwardFirstIsValid(b: Book, h: Header, id: U64, opens: bool)
    requires b.Valid() && b.pendingHeader.None? && h.stream in b.upstream && h.stream !in b.streams
    requires b.LastId(h.stream).None? && b.upstream[h.stream] == Upstream(id, id)
    ensures ForwardFirst(b, h, id, opens).0.Valid()
  {
    OpenAndWriteIsValid(b, h, id);
    FirstWrite(b, h, id);
  }

  lemma ForwardMidIsValid(b: Book, s: StreamId, id: U64, active: Option<Header>, opens: bool)
    requires b.Valid() && b.pendingHeader.None? && s in b.upstream && s !in b.streams
    requires b.upstream[s].last == id && (b.LastId(s).Some? ==> b.LastId(s).value < id)
    requires active.Some? ==> active.value.stream == s
    ensures ForwardMid(b, s, id, active, opens).0.Valid()
  {
    var cached := if s in b.skippedHeaders then Some(b.skippedHeaders[s]) else active;
    NoHeadersIsValid(b, b.skippedHeaders - {s});
    if cached.Some? && opens {
      OpenAndWriteIsValid(b.(skippedHeaders := b.skippedHeaders - {s}), cached.value.ForMidSubgroup(), id);
    }
  }

  lemma ForwardedIsValid(b: Book, s: StreamId, id: U64, header: Option<Header>, active: Option<Header>, opens: bool)
    requires b.Valid() && s in b.upstream && b.upstream[s].last == id && (b.LastId(s).Some? ==> b.LastId(s).value < id)
    requires header.Some? ==> header.value.stream == s && s !in b.streams && b.LastId(s).None? && b.upstream[s].first == id
    requires active.Some? ==> active.value.stream == s
    ensures Forwarded(b, s, id, header, active, opens).0.Valid()
  {
    var b' := b.(pendingHeader := None);
    NoHeadersIsValid(b, b.skippedHeaders);
    if header.Some? {
      ForwardFirstIsValid(b', header.value, id, opens);
    } else if s in b.streams {
      WriteIsValid(b', s, id);
    } else {
      ForwardMidIsValid(b', s, id, active, opens);
    }
  }

  /** What one Object does to the streams, given the verdict on it; a drain it ends comes after. */
  function Handled(
    b: Book, verdict: Verdict, s: StreamId, id: U64, header: Option<Header>, active: Option<Header>, opens: bool)
    : (Book, bool)
    requires (header.Some? ==> header.value.stream == s) && (active.Some? ==> active.value.stream == s)
    requires b.LastId(s).Some? ==> b.LastId(s).value < id
    requires s in b.skippedHeaders ==> b.skippedHeaders[s].stream == s
  {
    var b := b.Heard(s, id);
    match verdict
    case BeforeStart => (b.Skip(header), false)
    case PastEnd => (b, false)
    case NotForwarding => (if header.Some? then b.(pendingHeader := header) else b, false)
    case Filtered => (b.Skip(header), false)
    case Deliver => Forwarded(b, s, id, header, active, opens)
  }

  lemma HandledIsValid(
    b: Book, verdict: Verdict, s: StreamId, id: U64, header: Option<Header>, active: Option<Header>, opens: bool)
    requires b.Valid() && (header.Some? ==> header.value.stream == s && s !in b.upstream)
    requires (active.Some? ==> active.value.stream == s) && (s in b.upstream ==> b.upstream[s].last < id)
    ensures b.LastId(s).Some? ==> b.LastId(s).value < id
    ensures Handled(b, verdict, s, id, header, active, opens).0.Valid()
    ensures Handled(b, verdict, s, id, header, active, opens).0.peerStops == b.peerStops
    ensures Handled(b, verdict, s, id, header, active, opens).0.upstream == b.Heard(s, id).upstream
  {
    var heard := b.Heard(s, id);
    HeardIsValid(b, s, id);
    match verdict
    case BeforeStart => SkipIsValid(heard, header);
    case PastEnd =>
    case NotForwarding =>
      if header.Some? {
        PendingIsValid(heard, header.value);
      }
    case Filtered => SkipIsValid(heard, header);
    case Deliver => ForwardedIsValid(heard, s, id, header, active, opens);
  }

  // ---- The subscription ----

  class Subscription {
    var state: SubscriptionState
    var book: Book

    ghost predicate Valid()
      reads this
    {
      book.Valid()
    }

    constructor (initial: SubscriptionState)
      ensures Valid() && state == initial && book == Book(map[], None, map[], map[], 0, map[], [], 0)
    {
      state := initial;
      book := Book(map[], None, map[], map[], 0, map[], [], 0);
    }

    /**
     One Object of a subgroup stream. `header` comes with the stream's first Object only,
     `active` is the header the track still holds for an open stream, and `opens` says
     whether the connection can open a stream now.
     */
    method HandleSubgroupObject(
      s: StreamId, id: U64, header: Option<Header>, passes: bool, active: Option<Header>, opens: bool)
      returns (verdict: Verdict, sent: bool)
      requires Valid()
      requires header.Some? ==> header.value.stream == s && s !in book.upstream
      requires active.Some? ==> active.value.stream == s
      requires s in book.upstream ==> book.upstream[s].last < id
      modifies this
      ensures Valid()
      ensures verdict == old(state).VerdictOn(Location(s.group, id), passes)
      ensures !(verdict == PastEnd && old(state).softSuspended) ==>
        state == old(state) && (book, sent) == Handled(old(book), verdict, s, id, header, active, opens)
      ensures verdict == PastEnd ==> !sent && book.upstream == old(book).Heard(s, id).upstream
      ensures verdict == PastEnd && old(state).softSuspended ==>
        && state == old(state).(softSuspended := false, forward := false, publishDoneAtEnd := false)
        && (old(state).publishDoneAtEnd ==> book.streams == map[] && book.lastIds == map[] && book.openedCount == old(book).openedCount)
        && (!old(state).publishDoneAtEnd ==> book == old(book).Heard(s, id))
      ensures book.peerStops == old(book).peerStops
      ensures book.upstream ==
        old(book).upstream[s := Upstream(if s in old(book).upstream then old(book).upstream[s].first else id, id)]
    {
      verdict := state.VerdictOn(Location(s.group, id), passes);
      HandledIsValid(book, verdict, s, id, header, active, opens);
      var result := Handled(book, verdict, s, id, header, active, opens);
      book, sent := result.0, result.1;
      if verdict == PastEnd {
        FinishSoftDrain();
      }
    }

    /** Ends a soft switch's drain, and the subscription's streams with it if PUBLISH_DONE is due. */
    method FinishSoftDrain()
      requires Valid()
      modifies this
      ensures Valid() && book.upstream == old(book).upstream && book.peerStops == old(book).peerStops
      ensures old(state).softSuspended ==>
        state == old(state).(softSuspended := false, forward := false, publishDoneAtEnd := false)
      ensures old(state).softSuspended && old(state).publishDoneAtEnd ==>
        book.streams == map[] && book.lastIds == map[] && book.openedCount == old(book).openedCount
      ensures !(old(state).softSuspended && old(state).publishDoneAtEnd) ==> book == old(book)
      ensures !old(state).softSuspended ==> state == old(state)
    {
      if state.softSuspended {
        var publishDone := state.publishDoneAtEnd;
        state := state.(softSuspended := false, forward := false, publishDoneAtEnd := false);
        if publishDone {
          EndAllStreams();
        }
      }
    }

    /** Finishing, cancelling, falling too far behind or being cut by a hard switch. */
    method EndAllStreams()
      requires Valid()
      modifies `book
      ensures Valid() && book.streams == map[] && book.lastIds == map[]
      ensures book.upstream == old(book).upstream && book.peerStops == old(book).peerStops
      ensures book.openedCount == old(book).openedCount
    {
      while book.lastIds != map[]
        invariant Valid()
        invariant book.upstream == old(book).upstream && book.peerStops == old(book).peerStops
        invariant book.openedCount == old(book).openedCount
        decreases book.lastIds.Keys
      {
        var s :| s in book.lastIds;
        EndIsValid(book, s);
        book := book.End(s);
      }
      assert forall s :: s in book.streams ==> book.StreamValid(s);
    }

    method HandleStreamClosed(s: StreamId)
      requires Valid()
      modifies `book
      ensures Valid()
      ensures book == old(book).End(s).(skippedHeaders := old(book).skippedHeaders - {s})
    {
      EndIsValid(book, s);
      book := book.End(s);
      FewerSkippedIsValid(book, s);
      book := book.(skippedHeaders := book.skippedHeaders - {s});
    }

    /** The peer refuses the stream: the connection drops it, but its last ID stays behind. */
    method PeerStops(s: StreamId)
      requires Valid()
      modifies `book
      ensures Valid() && book == old(book).(peerStops := old(book).peerStops + 1).Drop(s)
    {
      book := book.(peerStops := book.peerStops + 1);
      DropIsValid(book, s);
      book := book.Drop(s);
    }

    /** A REQUEST_UPDATE: a new filter, a new Forward State, or both. */
    method Update(filter: Option<LocationFilter>, forward: Option<bool>, opens: bool)
      requires Valid()
      modifies this
      ensures Valid()
      ensures state ==
        var filtered := if filter.Some? then old(state).WithLocationFilter(filter.value, None) else old(state);
        if forward.Some? then filtered.(forward := forward.value) else filtered
      ensures book ==
        var b := old(book);
        if forward == Some(true) && !old(state).forward && b.pendingHeader.Some?
        then if opens then OpenedAhead(b, b.pendingHeader.value) else b.(pendingHeader := None)
        else b
    {
      if filter.Some? {
        state := state.WithLocationFilter(filter.value, None);
      }
      var becomesTrue := forward == Some(true) && !state.forward;
      if forward.Some? {
        state := state.(forward := forward.value);
      }
      if becomesTrue && book.pendingHeader.Some? {
        var pending := book.pendingHeader.value.ForMidSubgroup();
        NoHeadersIsValid(book, book.skippedHeaders);
        book := book.(pendingHeader := None);
        if opens {
          OpenEmptyIsValid(book, pending);
          book := book.OpenEmpty(pending);
        }
      }
    }
  }

  lemma PendingIsValid(b: Book, h: Header)
    requires b.Valid() && h.stream in b.upstream && h.stream !in b.streams && b.LastId(h.stream).None?
    ensures b.(pendingHeader := Some(h)).Valid()
  {
    var b' := b.(pendingHeader := Some(h));
    forall o | o in b'.streams ensures b'.StreamValid(o) {
      assert b.StreamValid(o);
    }
  }

  lemma FewerSkippedIsValid(b: Book, s: StreamId)
    requires b.Valid()
    ensures b.(skippedHeaders := b.skippedHeaders - {s}).Valid()
  {
    var b' := b.(skippedHeaders := b.skippedHeaders - {s});
    forall o | o in b'.streams ensures b'.StreamValid(o) {
      assert b.StreamValid(o);
    }
  }

  /**
   Every downstream stream ever opened decodes to exactly the IDs sent on it unless it
   opened with a stale last ID, which takes a peer that stopped an earlier stream; a
   stream that claims to start with the first Object of its subgroup does; and the
   stream count reported is the number of streams opened.
   */
  lemma StreamsDecode(b: Book, d: Downstream)
    requires b.Valid() && (d in b.ended || exists s :: s in b.streams && b.streams[s] == d)
    ensures d.ids != [] ==> (Decode(d.deltas) == d.ids <==> d.stale.None?)
    ensures b.peerStops == 0 ==> Decode(d.deltas) == d.ids
    ensures d.header.firstObject && d.ids != [] ==> d.ids[0] == d.subgroupFirst
    ensures b.openedCount == |b.streams| + |b.ended|
  {
    if s :| s in b.streams && b.streams[s] == d {
      assert b.StreamValid(s);
    }
    if d.ids != [] {
      SoundDecodes(d);
    }
  }

  /** Exactly when an Object that passed every check goes out, and that nothing else changes on the wire. */
  lemma ForwardedSends(b: Book, s: StreamId, id: U64, header: Option<Header>, active: Option<Header>, opens: bool)
    requires s in b.upstream && (b.LastId(s).Some? ==> b.LastId(s).value < id)
    requires header.Some? ==> header.value.stream == s
    requires (active.Some? ==> active.value.stream == s) && (s in b.skippedHeaders ==> b.skippedHeaders[s].stream == s)
    ensures
      var (b', sent) := Forwarded(b, s, id, header, active, opens);
      && (sent <==> (header.None? && s in b.streams) || (opens && (header.Some? || s in b.skippedHeaders || active.Some?)))
      && (sent ==> s in b'.streams && b'.streams[s].ids == (if s in b.streams then b.streams[s].ids else []) + [id])
      && (!sent ==> b'.streams == b.streams)
      && b'.streams.Keys == b.streams.Keys + (if sent then {s} else {})
      && (forall o :: o in b.streams && o != s ==> b'.streams[o] == b.streams[o])
      && b'.ended == b.ended && b'.upstream == b.upstream
    ensures
      var (b', sent) := Forwarded(b, s, id, header, active, opens);
      && b'.lastIds == (if sent then b.lastIds[s := Some(id)] else b.lastIds)
      && b'.openedCount == b.openedCount + (if sent && (header.Some? || s !in b.streams) then 1 else 0)
      && b'.pendingHeader == None
      && b'.skippedHeaders == if header.None? && s !in b.streams then b.skippedHeaders - {s} else b.skippedHeaders
  {
  }

  /** An Object that is not to be delivered changes nothing on the wire; its header, if it came with one, is saved or held back. */
  lemma RefusedSendsNothing(
    b: Book, verdict: Verdict, s: StreamId, id: U64, header: Option<Header>, active: Option<Header>, opens: bool)
    requires verdict != Deliver && (header.Some? ==> header.value.stream == s) && (active.Some? ==> active.value.stream == s)
    requires (b.LastId(s).Some? ==> b.LastId(s).value < id) && (s in b.skippedHeaders ==> b.skippedHeaders[s].stream == s)
    ensures
      var (b', sent) := Handled(b, verdict, s, id, header, active, opens);
      && !sent && b'.streams == b.streams && b'.lastIds == b.lastIds && b'.ended == b.ended && b'.openedCount == b.openedCount
      && b'.skippedHeaders ==
           (if header.Some? && (verdict == BeforeStart || verdict == Filtered) then b.skippedHeaders[s := header.value] else b.skippedHeaders)
      && b'.pendingHeader == (if header.Some? && verdict == NotForwarding then header else b.pendingHeader)
  {
  }

  /** A stream whose first Object was skipped can still be opened by a later one, whatever the track remembers. */
  lemma SkippedStreamStillOpens(b: Book, verdict: Verdict, h: Header, first: U64, later: U64)
    requires b.Valid() && h.stream !in b.upstream && first < later && (verdict == BeforeStart || verdict == Filtered)
    ensures
      var skipped := Handled(b, verdict, h.stream, first, Some(h), None, true).0;
      skipped.LastId(h.stream).None? && Handled(skipped, Deliver, h.stream, later, None, None, true).1
  {
  }

  /**
   A header that came while the subscription was paused is held back, until another one
   takes its place or an Object is delivered: set to forward, the subscription opens its
   stream without the first-Object claim, and the next Object is the first written to it.
   */
  lemma PausedStreamOpensAhead(b: Book, h: Header, first: U64, later: U64)
    requires b.Valid() && h.stream !in b.upstream && first < later
    ensures
      var paused := Handled(b, NotForwarding, h.stream, first, Some(h), None, true).0;
      paused.pendingHeader == Some(h) && paused.streams == b.streams && h.stream in paused.upstream
    ensures
      var ahead := OpenedAhead(Handled(b, NotForwarding, h.stream, first, Some(h), None, true).0, h);
      && h.stream in ahead.streams && !ahead.streams[h.stream].header.firstObject
      && ahead.openedCount == b.openedCount + 1 && ahead.LastId(h.stream).None?
      && (h.stream in ahead.skippedHeaders ==> ahead.skippedHeaders[h.stream].stream == h.stream)
    ensures
      var ahead := OpenedAhead(Handled(b, NotForwarding, h.stream, first, Some(h), None, true).0, h);
      var (written, sent) := Handled(ahead, Deliver, h.stream, later, None, None, false);
      sent && OnWire(written, h.stream) == ([later], [later])
    ensures Decode([later]) == [later]
  {
    assert b.LastId(h.stream).None? && h.stream !in b.streams && h.stream !in b.skippedHeaders;
    DecodesOne(later);
    var ids: seq<U64> := [later];
    var ahead := OpenedAhead(Handled(b, NotForwarding, h.stream, first, Some(h), None, true).0, h);
    var written := Handled(ahead, Deliver, h.stream, later, None, None, false).0;
    assert written.streams[h.stream].deltas == [] + ids && written.streams[h.stream].ids == [] + ids;
  }

  lemma DecodesOne(id: U64)
    ensures Decode([id]) == [id]
  {
    var deltas: seq<U64> := [id];
    assert deltas[..0] == [];
  }

  /** What an update makes of a header held back. */
  function OpenedAhead(b: Book, h: Header): Book
    requires h.stream in b.upstream
  {
    b.(pendingHeader := None).OpenEmpty(h.ForMidSubgroup())
  }

  /** The book once the peer has stopped a stream. */
  function AfterStop(b: Book, s: StreamId): Book {
    b.(peerStops := b.peerStops + 1).Drop(s)
  }

  /** What is written on the stream a book has for a subgroup, and the IDs meant by it. */
  function OnWire(b: Book, s: StreamId): (seq<U64>, seq<U64>) {
    if s in b.streams then (b.streams[s].deltas, b.streams[s].ids) else ([], [])
  }

  /**
   Once the peer has stopped a stream that carried something, the next Object of that
   subgroup goes out on a new stream relative to an ID its receiver never saw.
   */
  lemma StoppedStreamMisdecodes(b: Book, s: StreamId, id: U64, active: Header, stopped: Book)
    requires b.Valid() && s in b.streams && b.streams[s].ids != [] && stopped == AfterStop(b, s)
    requires s in b.upstream && b.upstream[s].last < id && active.stream == s
    ensures stopped.LastId(s).Some? && stopped.LastId(s).value < id
    ensures s in stopped.skippedHeaders ==> stopped.skippedHeaders[s].stream == s
    ensures
      var wire := OnWire(Handled(stopped, Deliver, s, id, None, Some(active), true).0, s);
      wire.1 == [id] && Decode(wire.0) != [id]
  {
    var last := LastIsKnown(b, s);
    assert Decode([id - last - 1]) == [id - last - 1];
  }

  lemma LastIsKnown(b: Book, s: StreamId) returns (last: U64)
    requires b.Valid() && s in b.streams && b.streams[s].ids != []
    ensures b.LastId(s) == Some(last) && s in b.upstream && last <= b.upstream[s].last
    ensures s in b.skippedHeaders ==> b.skippedHeaders[s].stream == s
  {
    assert b.StreamValid(s);
    last := b.LastId(s).value;
  }
}
