/**
 The rate limiter all streams of one subscriber share: a bucket of one second's worth of
 tokens, over real numbers of bytes and seconds. A caller that finds too few sleeps for
 the rest, holding the bucket, so the next call comes no earlier than it wakes.
 */
module TokenBucket {
  import opened Locations

  /** The rate in bytes per second. */
  function RateOf(kbps: nat): (rate: real)
    ensures 8.0 * rate == (1000 * kbps) as real
  {
    kbps as real * 1000.0 / 8.0
  }

  datatype Bucket = Bucket(rate: real, tokens: real, lastRefill: real) {
    ghost predicate Valid() {
      rate > 0.0 && 0.0 <= tokens <= rate
    }

    function Refilled(now: real): real {
      var elapsed := if now >= lastRefill then now - lastRefill else 0.0;
      var filled := tokens + elapsed * rate;
      if filled < rate then filled else rate
    }

    /** The bucket after a call, and how long the caller slept. */
    function Consumed(now: real, bytes: nat): (Bucket, real)
      requires rate > 0.0
    {
      var available, needed := Refilled(now), bytes as real;
      if available < needed then (Bucket(rate, 0.0, now), (needed - available) / rate)
      else (Bucket(rate, available - needed, now), 0.0)
    }

    /** The bucket after a call that was dropped in its sleep: refilled, and nothing taken. */
    function GivenUp(now: real): Bucket {
      Bucket(rate, Refilled(now), now)
    }
  }

  class Limiter {
    const rate: real
    var tokens: real
    var lastRefill: real

    function Value(): Bucket
      reads this
    {
      Bucket(rate, tokens, lastRefill)
    }

    constructor (kbps: nat, now: real)
      ensures Value() == Bucket(RateOf(kbps), RateOf(kbps), now)
    {
      var r := kbps as real * 1000.0 / 8.0;
      rate, tokens, lastRefill := r, r, now;
    }

    /** A call that finds too few tokens and is dropped before it wakes. */
    method GiveUp(now: real)
      requires Value().Valid()
      modifies this
      ensures Value() == old(Value().GivenUp(now)) && Value().Valid()
    {
      var elapsed := if now >= lastRefill then now - lastRefill else 0.0;
      var filled := tokens + elapsed * rate;
      tokens := if filled < rate then filled else rate;
      assert tokens == old(Value().Refilled(now));
      lastRefill := now;
    }

    /** `slept` is how long the call slept before it let the bytes through. */
    method Consume(now: real, bytes: nat) returns (slept: real)
      requires Value().Valid()
      modifies this
      ensures (Value(), slept) == old(Value().Consumed(now, bytes))
      ensures Value().Valid() && slept >= 0.0
    {
      ConsumedIsValid(Value(), now, bytes);
      var elapsed := if now >= lastRefill then now - lastRefill else 0.0;
      var filled := tokens + elapsed * rate;
      tokens := if filled < rate then filled else rate;
      assert tokens == old(Value().Refilled(now));
      lastRefill := now;
      var needed := bytes as real;
      if tokens < needed {
        var deficit := needed - tokens;
        slept := deficit / rate;
        tokens := 0.0;
      } else {
        slept := 0.0;
        tokens := tokens - needed;
      }
    }
  }

  lemma ConsumedIsValid(b: Bucket, now: real, bytes: nat)
    requires b.Valid()
    ensures b.Consumed(now, bytes).0.Valid() && b.Consumed(now, bytes).1 >= 0.0
  {
    var lacking := bytes as real - b.Refilled(now);
    if lacking > 0.0 {
      assert lacking / b.rate >= 0.0;
    }
  }

  // ---- Whole runs ----

  /**
   The books of a run: `freeAt` is when the last call was done with the bucket, `admitted`
   the bytes let through, `asleep` the time slept for them, of it `lastSleep` in the last
   call, and `spilled` the tokens lost over the rim.
   */
  datatype Books = Books(
    bucket: Bucket, start: real, freeAt: real, admitted: real, asleep: real, lastSleep: real, spilled: real)
  {
    /** The time until the last call let its bytes through, or came and was given up. */
    function Elapsed(): real {
      bucket.lastRefill + lastSleep - start
    }
  }

  /** A call that was given up in its sleep says after how long. */
  datatype Call = Call(now: real, bytes: nat, gaveUp: Option<real>)

  ghost predicate Initial(b: Books) {
    && b.bucket.rate > 0.0 && b.bucket.tokens == b.bucket.rate && b.bucket.lastRefill == b.start
    && b.freeAt == b.start && b.admitted == 0.0 && b.asleep == 0.0 && b.lastSleep == 0.0 && b.spilled == 0.0
  }

  ghost predicate Enabled(b: Books, call: Call) {
    && b.bucket.rate > 0.0 && call.now >= b.freeAt
    && (call.gaveUp.Some? ==> 0.0 <= call.gaveUp.value < b.bucket.Consumed(call.now, call.bytes).1)
  }

  function Overflow(b: Bucket, now: real): real {
    b.tokens + (now - b.lastRefill) * b.rate - b.Refilled(now)
  }

  function Next(b: Books, call: Call): Books
    requires b.bucket.rate > 0.0
  {
    var spilled := b.spilled + Overflow(b.bucket, call.now);
    match call.gaveUp
    case Some(after) =>
      Books(b.bucket.GivenUp(call.now), b.start, call.now + after, b.admitted, b.asleep, 0.0, spilled)
    case None =>
      var (bucket, slept) := b.bucket.Consumed(call.now, call.bytes);
      Books(bucket, b.start, call.now + slept, b.admitted + call.bytes as real, b.asleep + slept, slept, spilled)
  }

  ghost predicate IsRun(books: seq<Books>, calls: seq<Call>) {
    && |books| == |calls| + 1 && Initial(books[0])
    && forall n :: 0 <= n < |calls| ==> Enabled(books[n], calls[n]) && books[n + 1] == Next(books[n], calls[n])
  }

  /** Time asleep is part of the time elapsed, and only one caller sleeps at a time. */
  ghost predicate Timed(b: Books) {
    && 0.0 <= b.lastSleep <= b.asleep && b.asleep <= b.Elapsed()
    && b.bucket.lastRefill + b.lastSleep <= b.freeAt
  }

  /** Every token is let through, left, or spilled. */
  ghost predicate Balanced(b: Books) {
    b.admitted + b.bucket.tokens + b.spilled
    == b.bucket.rate + b.bucket.rate * (b.bucket.lastRefill - b.start) + b.bucket.rate * b.asleep
  }

  ghost predicate Inv(b: Books) {
    b.bucket.Valid() && b.spilled >= 0.0 && Timed(b) && Balanced(b)
  }

  /** What a call lets through comes out of the bucket or is slept for. */
  lemma CallIsPaid(b: Bucket, now: real, bytes: nat)
    requires b.Valid()
    ensures
      var (b', slept) := b.Consumed(now, bytes);
      bytes as real + b'.tokens == b.Refilled(now) + b.rate * slept
  {
    var available, needed := b.Refilled(now), bytes as real;
  }

  /** What a call finds is what was left and what flowed in, less what spilled. */
  lemma SpillIsNotNegative(b: Bucket, now: real)
    requires b.Valid() && now >= b.lastRefill
    ensures Overflow(b, now) >= 0.0
  {
  }

  /** Nothing spills unless the bucket is full, and refilling it in between changes nothing. */
  lemma SpillsOnlyWhenFull(b: Bucket, now: real, later: real)
    requires b.Valid() && b.lastRefill <= now <= later
    ensures Overflow(b, now) > 0.0 ==> b.Refilled(now) == b.rate
    ensures b.GivenUp(now).Refilled(later) == b.Refilled(later)
  {
    assert b.rate * (later - now) >= 0.0;
    assert (now - b.lastRefill) * b.rate + (later - now) * b.rate == (later - b.lastRefill) * b.rate;
  }

  /** A call sleeps exactly if it needs more than it finds, and then leaves nothing. */
  lemma SleepsExactly(b: Bucket, now: real, bytes: nat)
    requires b.Valid()
    ensures
      var (b', slept) := b.Consumed(now, bytes);
      (slept > 0.0 <==> bytes as real > b.Refilled(now)) && (slept > 0.0 ==> b'.tokens == 0.0) && b'.lastRefill == now
  {
    var lacking := bytes as real - b.Refilled(now);
    if lacking > 0.0 {
      assert lacking / b.rate > 0.0;
    }
  }

  lemma NextIsValid(b: Books, call: Call)
    requires b.bucket.Valid() && Enabled(b, call)
    ensures Next(b, call).bucket.Valid()
  {
    ConsumedIsValid(b.bucket, call.now, call.bytes);
  }

  lemma NextKeepsInv(b: Books, call: Call, b': Books)
    requires Inv(b) && Enabled(b, call) && b' == Next(b, call)
    ensures Inv(b') && b'.bucket.rate == b.bucket.rate && b'.start == b.start
  {
    NextIsValid(b, call);
    SpillIsNotNegative(b.bucket, call.now);
    NextIsBalanced(b, call, b');
  }

  /** The bytes a call lets through. */
  function Needed(call: Call): real {
    if call.gaveUp.Some? then 0.0 else call.bytes as real
  }

  lemma NextIsPaid(b: Books, call: Call, b': Books)
    requires b.bucket.Valid() && Enabled(b, call) && b' == Next(b, call)
    ensures b'.admitted == b.admitted + Needed(call)
    ensures Needed(call) + b'.bucket.tokens == b.bucket.Refilled(call.now) + b.bucket.rate * b'.lastSleep
  {
    CallIsPaid(b.bucket, call.now, call.bytes);
  }

  lemma NextIsBalanced(b: Books, call: Call, b': Books)
    requires b.bucket.Valid() && Balanced(b) && Enabled(b, call) && b' == Next(b, call)
    ensures Balanced(b')
  {
    NextIsPaid(b, call, b');
  }

  lemma {:induction false} RunKeepsInv(books: seq<Books>, calls: seq<Call>, n: nat)
    requires IsRun(books, calls) && n < |books|
    ensures Inv(books[n]) && books[n].bucket.rate == books[0].bucket.rate && books[n].start == books[0].start
  {
    if n > 0 {
      RunKeepsInv(books, calls, n - 1);
      NextKeepsInv(books[n - 1], calls[n - 1], books[n]);
    }
  }

  /** The exact number of bytes admitted, from books that balance. */
  lemma ExactlyAdmitted(b: Books)
    requires Inv(b)
    ensures
      var r := b.bucket.rate;
      b.admitted == r + r * b.Elapsed() + r * (b.asleep - b.lastSleep) - b.bucket.tokens - b.spilled
  {
    var r := b.bucket.rate;
    assert (b.bucket.lastRefill - b.start) + b.lastSleep == b.Elapsed();
  }

  lemma SleepsWithinElapsed(b: Books)
    requires Inv(b)
    ensures 0.0 <= b.bucket.rate * b.lastSleep && b.bucket.rate * b.asleep <= b.bucket.rate * b.Elapsed()
  {
    var r := b.bucket.rate;
    assert r * b.lastSleep >= 0.0;
    assert r * (b.Elapsed() - b.asleep) >= 0.0;
  }

  /**
   The rate bound. Of every run, with calls given up or not: exactly how many bytes were
   admitted, and so at most one second's worth and what flowed in while time passed and,
   again, while callers slept.
   */
  lemma RateBound(books: seq<Books>, calls: seq<Call>, n: nat)
    requires IsRun(books, calls) && n < |books|
    ensures
      var b, r := books[n], books[n].bucket.rate;
      && r == books[0].bucket.rate && b.start == books[0].start && 0.0 <= b.bucket.tokens <= r
      && b.admitted == r + r * b.Elapsed() + r * (b.asleep - b.lastSleep) - b.bucket.tokens - b.spilled
      && b.admitted <= r + r * b.Elapsed() + r * b.asleep
      && b.admitted <= r + 2.0 * r * b.Elapsed()
      && (n < |calls| && books[n + 1].spilled > b.spilled ==> b.bucket.Refilled(calls[n].now) == r)
  {
    RunKeepsInv(books, calls, n);
    var b := books[n];
    if n < |calls| {
      SpillsOnlyWhenFull(b.bucket, calls[n].now, calls[n].now);
    }
    ExactlyAdmitted(b);
    SleepsWithinElapsed(b);
  }

  /** What a call leaves in the bucket. */
  function Left(b: Bucket, call: Call): real {
    var available := b.Refilled(call.now);
    if call.gaveUp.Some? then available else if available < call.bytes as real then 0.0 else available - call.bytes as real
  }

  /** The books keep to one second's worth and what flowed in while time passed. */
  ghost predicate WithinRate(b: Books) {
    b.admitted <= b.bucket.rate + b.bucket.rate * b.Elapsed()
  }

  /** The sleeps so far are covered by what the call will leave, what has spilled, and what spills now. */
  ghost predicate SleepsAreCovered(b: Books, call: Call) {
    b.bucket.rate * b.asleep <= Left(b.bucket, call) + b.spilled + Overflow(b.bucket, call.now)
  }

  /**
   Whether a call keeps the run within the rate can be told before it.
   */
  lemma KeepsTheRateExactly(books: seq<Books>, calls: seq<Call>, n: nat)
    requires IsRun(books, calls) && n < |calls|
    ensures
      var b, call := books[n], calls[n];
      WithinRate(books[n + 1]) <==> SleepsAreCovered(b, call)
  {
    RunKeepsInv(books, calls, n);
    CallKeepsTheRateExactly(books[n], calls[n], books[n + 1]);
  }

  lemma CallKeepsTheRateExactly(b: Books, call: Call, b': Books)
    requires Inv(b) && Enabled(b, call) && b' == Next(b, call)
    ensures WithinRate(b') <==> SleepsAreCovered(b, call)
  {
    NextKeepsInv(b, call, b');
    EarlierSleepsAreCovered(b', b'.bucket.rate, b'.asleep - b'.lastSleep);
    CallLeaves(b, call, b');
  }

  lemma EarlierSleepsAreCovered(b: Books, r: real, earlier: real)
    requires Inv(b) && r == b.bucket.rate && earlier == b.asleep - b.lastSleep
    ensures WithinRate(b) <==> r * earlier <= b.bucket.tokens + b.spilled
  {
    ExactlyAdmitted(b);
    Covers(b.admitted, r + r * b.Elapsed(), r * earlier, b.bucket.tokens + b.spilled);
  }

  lemma CallLeaves(b: Books, call: Call, b': Books)
    requires b.bucket.Valid() && Enabled(b, call) && b' == Next(b, call)
    ensures b'.bucket.tokens == Left(b.bucket, call) && b'.spilled == b.spilled + Overflow(b.bucket, call.now)
    ensures b'.asleep - b'.lastSleep == b.asleep
  {
  }

  lemma Covers(admitted: real, within: real, slept: real, kept: real)
    requires admitted == within + slept - kept
    ensures admitted <= within <==> slept <= kept
  {
  }

  /** One second after an emptying, a caller that needs two seconds' worth sleeps one second more. */
  lemma SleepsASecond(b: Bucket, now: real, rate: nat)
    requires b.rate == rate as real && rate > 0
    requires (b.tokens == b.rate && now == b.lastRefill) || (b.tokens == 0.0 && now == b.lastRefill + 1.0)
    ensures b.Refilled(now) == b.rate && b.Consumed(now, 2 * rate) == (Bucket(b.rate, 0.0, now), 1.0)
    ensures b.tokens + (now - b.lastRefill) * b.rate == b.rate
  {
    assert (2 * rate) as real - b.rate == b.rate;
    assert b.rate / b.rate == 1.0;
  }

  /** Callers that always need two seconds' worth get through at twice the rate, for as long as they like. */
  lemma {:induction false} TwiceTheRate(rate: nat, n: nat) returns (books: seq<Books>, calls: seq<Call>)
    requires rate > 0
    ensures IsRun(books, calls) && |calls| == n
    ensures books[0].bucket.rate == rate as real && books[0].start == 0.0
    ensures books[n].freeAt == n as real && books[n].admitted == (2 * rate * n) as real
    ensures n > 0 ==> books[n].bucket == Bucket(rate as real, 0.0, (n - 1) as real)
    ensures n == 0 ==> books[n].bucket == Bucket(rate as real, rate as real, 0.0)
  {
    var r := rate as real;
    if n == 0 {
      books, calls := [Books(Bucket(r, r, 0.0), 0.0, 0.0, 0.0, 0.0, 0.0, 0.0)], [];
    } else {
      books, calls := TwiceTheRate(rate, n - 1);
      var last, call := books[n - 1], Call((n - 1) as real, 2 * rate, None);
      SleepsASecond(last.bucket, call.now, rate);
      Together(rate, n);
      books, calls := books + [Next(last, call)], calls + [call];
    }
  }

  lemma Together(rate: nat, n: nat)
    requires n > 0
    ensures (2 * rate * (n - 1)) as real + (2 * rate) as real == (2 * rate * n) as real
  {
    assert 2 * rate * (n - 1) + 2 * rate == 2 * rate * n;
  }
}
