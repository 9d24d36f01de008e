/**
 Room discovery over one shared signalling track.

 Every session subscribes to the track before it announces itself with a join, and
 answers the joins of others. Signals are texts of fields separated by colons. A session
 gets every signal sent after it subscribed, in any order and at any time; a run is any
 interleaving of sessions subscribing, joining and handling what reached them.
 */
module Signalling {
  import opened Locations
  import opened Sequences

  // ---- The texts ----

  datatype Signal =
    | Join(sender: string, token: string)
    | Welcome(sender: string, receiver: string, receiverToken: string)
    | DuplicateUser(sender: string, receiver: string, receiverToken: string)
    | Unknown

  /** What a user name or a token looks like. */
  predicate Plain(s: string) {
    s != "" && ':' !in s
  }

  predicate PlainSignal(signal: Signal) {
    match signal
    case Join(sender, token) => Plain(sender) && Plain(token)
    case Welcome(sender, receiver, token) => Plain(sender) && Plain(receiver) && Plain(token)
    case DuplicateUser(sender, receiver, token) => Plain(sender) && Plain(receiver) && Plain(token)
    case Unknown => false
  }

  function Text(signal: Signal): string {
    match signal
    case Join(sender, token) => sender + ":" + (token + ":" + "join")
    case Welcome(sender, receiver, token) => sender + ":" + (receiver + ":" + (token + ":" + "welcome"))
    case DuplicateUser(sender, receiver, token) => sender + ":" + (receiver + ":" + (token + ":" + "duplicate_user"))
    case Unknown => ""
  }

  /** The three patterns, in the order they are tried. */
  function Parse(text: string): (signal: Signal)
    ensures signal == Unknown || PlainSignal(signal)
  {
    var f := Split(text, ':');
    if |f| == 3 && f[0] != "" && f[1] != "" && f[2] == "join" then Join(f[0], f[1])
    else if |f| == 4 && f[0] != "" && f[1] != "" && f[2] != "" && f[3] == "welcome" then Welcome(f[0], f[1], f[2])
    else if |f| == 4 && f[0] != "" && f[1] != "" && f[2] != "" && f[3] == "duplicate_user" then
      DuplicateUser(f[0], f[1], f[2])
    else Unknown
  }

  lemma SplitThree(a: string, b: string, kind: string)
    requires ':' !in a && ':' !in b && ':' !in kind
    ensures Split(a + ":" + (b + ":" + kind), ':') == [a, b, kind]
  {
    SplitPlain(kind, ':');
    SplitFirst(b, ':', kind);
    SplitFirst(a, ':', b + ":" + kind);
  }

  lemma SplitFour(a: string, b: string, c: string, kind: string)
    requires ':' !in a && ':' !in b && ':' !in c && ':' !in kind
    ensures Split(a + ":" + (b + ":" + (c + ":" + kind)), ':') == [a, b, c, kind]
  {
    SplitThree(b, c, kind);
    SplitFirst(a, ':', b + ":" + (c + ":" + kind));
  }

  /** A signal reads as what was written. */
  lemma SignalRoundTrip(signal: Signal)
    requires PlainSignal(signal)
    ensures Parse(Text(signal)) == signal
  {
    match signal
    case Join(sender, token) => SplitThree(sender, token, "join");
    case Welcome(sender, receiver, token) => SplitFour(sender, receiver, token, "welcome");
    case DuplicateUser(sender, receiver, token) => SplitFour(sender, receiver, token, "duplicate_user");
  }

  // ---- A session ----

  /**
   `subscribedAt` is how many signals had been sent when the subscription took effect,
   `joinedAt` the place of its own join, `handled` the signals handled so far, and
   `peers` the names it was told of.
   */
  datatype Session = Session(
    username: string, token: string, subscribedAt: Option<nat>, joinedAt: Option<nat>,
    handled: set<nat>, peers: set<string>, toldDuplicate: bool)

  /** What a session does with a signal: what it learns, and what it sends back. */
  function Reaction(s: Session, text: string): (Session, seq<string>) {
    match Parse(text)
    case Join(sender, token) =>
      if sender == s.username && token == s.token then (s, [])
      else if sender == s.username then (s, [Text(DuplicateUser(s.username, sender, token))])
      else (s.(peers := s.peers + {sender}), [Text(Welcome(s.username, sender, token))])
    case Welcome(sender, receiver, token) =>
      if receiver == s.username && token == s.token then (s.(peers := s.peers + {sender}), []) else (s, [])
    case DuplicateUser(sender, receiver, token) =>
      if receiver == s.username && token == s.token then (s.(toldDuplicate := true), []) else (s, [])
    case Unknown => (s, [])
  }

  datatype Room = Room(sessions: seq<Session>, log: seq<string>)

  datatype Step = Subscribe(i: nat) | SendJoin(i: nat) | Handle(i: nat, k: nat)

  predicate Enabled(r: Room, step: Step) {
    match step
    case Subscribe(i) => i < |r.sessions| && r.sessions[i].subscribedAt.None?
    case SendJoin(i) => i < |r.sessions| && r.sessions[i].subscribedAt.Some? && r.sessions[i].joinedAt.None?
    case Handle(i, k) =>
      && i < |r.sessions| && r.sessions[i].subscribedAt.Some?
      && r.sessions[i].subscribedAt.value <= k < |r.log| && k !in r.sessions[i].handled
  }

  function Next(r: Room, step: Step): Room
    requires Enabled(r, step)
  {
    match step
    case Subscribe(i) =>
      r.(sessions := r.sessions[i := r.sessions[i].(subscribedAt := Some(|r.log|))])
    case SendJoin(i) =>
      var s := r.sessions[i];
      Room(r.sessions[i := s.(joinedAt := Some(|r.log|))], r.log + [Text(Join(s.username, s.token))])
    case Handle(i, k) =>
      var (s, sent) := Reaction(r.sessions[i], r.log[k]);
      Room(r.sessions[i := s.(handled := s.handled + {k})], r.log + sent)
  }

  ghost predicate Initial(r: Room) {
    && r.log == []
    && (forall i :: 0 <= i < |r.sessions| ==>
          && Plain(r.sessions[i].username) && Plain(r.sessions[i].token)
          && r.sessions[i].subscribedAt.None? && r.sessions[i].joinedAt.None?
          && r.sessions[i].handled == {} && r.sessions[i].peers == {} && !r.sessions[i].toldDuplicate)
    && (forall i, j :: 0 <= i < j < |r.sessions| ==> r.sessions[i].token != r.sessions[j].token)
  }

  ghost predicate IsRun(rooms: seq<Room>, steps: seq<Step>) {
    && |rooms| == |steps| + 1 && Initial(rooms[0])
    && forall n :: 0 <= n < |steps| ==> Enabled(rooms[n], steps[n]) && rooms[n + 1] == Next(rooms[n], steps[n])
  }

  // ---- What every step keeps ----

  ghost predicate Sent(log: seq<string>, from: nat, signal: Signal) {
    exists k :: from <= k < |log| && Parse(log[k]) == signal
  }

  /** The session subscribed before its own join, which is in the log. */
  ghost predicate JoinHolds(r: Room, s: Session) {
    && Plain(s.username) && Plain(s.token)
    && (s.subscribedAt.Some? ==> s.subscribedAt.value <= |r.log|)
    && (s.joinedAt.Some? ==>
          && s.subscribedAt.Some? && s.subscribedAt.value <= s.joinedAt.value < |r.log|
          && Parse(r.log[s.joinedAt.value]) == Join(s.username, s.token))
  }

  /** What handling signal `k` must have led to. */
  ghost predicate HandledHolds(r: Room, s: Session, k: nat)
    requires k < |r.log|
  {
    match Parse(r.log[k])
    case Join(sender, token) =>
      if sender != s.username then sender in s.peers && Sent(r.log, k + 1, Welcome(s.username, sender, token))
      else token != s.token ==> Sent(r.log, k + 1, DuplicateUser(s.username, sender, token))
    case Welcome(sender, receiver, token) => receiver == s.username && token == s.token ==> sender in s.peers
    case DuplicateUser(_, receiver, token) => receiver == s.username && token == s.token ==> s.toldDuplicate
    case Unknown => true
  }

  ghost predicate SessionHolds(r: Room, s: Session) {
    && JoinHolds(r, s)
    && (forall k :: k in s.handled ==> k < |r.log| && HandledHolds(r, s, k))
    && (forall name :: name in s.peers ==> name != s.username && Named(r.sessions, name))
    && (s.toldDuplicate ==> NamedOther(r.sessions, s.username, s.token))
  }

  /** Some session goes by this name; and one other than that with this token does. */
  ghost predicate Named(sessions: seq<Session>, name: string) {
    exists j :: 0 <= j < |sessions| && sessions[j].username == name
  }

  ghost predicate NamedOther(sessions: seq<Session>, name: string, token: string) {
    exists j :: 0 <= j < |sessions| && sessions[j].username == name && sessions[j].token != token
  }

  /** Every answer in the log is to an earlier join with its receiver's name and token. */
  ghost predicate EntryHolds(r: Room, k: nat)
    requires k < |r.log|
  {
    match Parse(r.log[k])
    case Join(sender, token) => exists j :: 0 <= j < |r.sessions| && r.sessions[j].username == sender && r.sessions[j].token == token
    case Welcome(sender, receiver, token) =>
      Sent(r.log[..k], 0, Join(receiver, token)) && sender != receiver && Named(r.sessions, sender)
    case DuplicateUser(sender, receiver, token) =>
      Sent(r.log[..k], 0, Join(receiver, token)) && sender == receiver && NamedOther(r.sessions, sender, token)
    case Unknown => false
  }

  ghost predicate Inv(r: Room) {
    && (forall i :: 0 <= i < |r.sessions| ==> SessionHolds(r, r.sessions[i]))
    && (forall k :: 0 <= k < |r.log| ==> EntryHolds(r, k))
    && (forall i, j :: 0 <= i < j < |r.sessions| ==> r.sessions[i].token != r.sessions[j].token)
  }

  /** The same people, and everything sent so far still sent. */
  ghost predicate Continues(r: Room, r': Room) {
    && |r.log| <= |r'.log| && r'.log[..|r.log|] == r.log
    && |r.sessions| == |r'.sessions|
    && forall i :: 0 <= i < |r.sessions| ==>
         r.sessions[i].username == r'.sessions[i].username && r.sessions[i].token == r'.sessions[i].token
  }

  lemma SentStays(log: seq<string>, log': seq<string>, from: nat, signal: Signal)
    requires |log| <= |log'| && log'[..|log|] == log && Sent(log, from, signal)
    ensures Sent(log', from, signal)
  {
    var k :| from <= k < |log| && Parse(log[k]) == signal;
    assert log'[k] == log'[..|log|][k];
  }

  lemma NamesStay(r: Room, r': Room, name: string, token: string)
    requires Continues(r, r')
    ensures Named(r.sessions, name) ==> Named(r'.sessions, name)
    ensures NamedOther(r.sessions, name, token) ==> NamedOther(r'.sessions, name, token)
  {
    if j :| 0 <= j < |r.sessions| && r.sessions[j].username == name {
      assert r'.sessions[j].username == name;
    }
    if j :| 0 <= j < |r.sessions| && r.sessions[j].username == name && r.sessions[j].token != token {
      assert r'.sessions[j].username == name;
    }
  }

  lemma EntryStays(r: Room, r': Room, k: nat)
    requires Continues(r, r') && k < |r.log| && EntryHolds(r, k)
    ensures EntryHolds(r', k)
  {
    assert r'.log[k] == r'.log[..|r.log|][k] == r.log[k];
    assert r'.log[..k] == r'.log[..|r.log|][..k] == r.log[..k];
    match Parse(r.log[k])
    case Join(sender, token) =>
      var j :| 0 <= j < |r.sessions| && r.sessions[j].username == sender && r.sessions[j].token == token;
      assert r'.sessions[j].username == sender;
    case Welcome(sender, receiver, token) => NamesStay(r, r', sender, token);
    case DuplicateUser(sender, receiver, token) => NamesStay(r, r', sender, token);
  }

  lemma HandledStays(r: Room, r': Room, s: Session, k: nat)
    requires Continues(r, r') && k < |r.log| && HandledHolds(r, s, k)
    ensures HandledHolds(r', s, k)
  {
    assert r'.log[k] == r'.log[..|r.log|][k] == r.log[k];
    match Parse(r.log[k])
    case Join(sender, token) =>
      if sender != s.username {
        SentStays(r.log, r'.log, k + 1, Welcome(s.username, sender, token));
      } else if token != s.token {
        SentStays(r.log, r'.log, k + 1, DuplicateUser(s.username, sender, token));
      }
    case _ =>
  }

  lemma SessionStays(r: Room, r': Room, s: Session)
    requires Continues(r, r') && SessionHolds(r, s)
    ensures SessionHolds(r', s)
  {
    if s.joinedAt.Some? {
      assert r'.log[s.joinedAt.value] == r'.log[..|r.log|][s.joinedAt.value];
    }
    forall k | k in s.handled ensures k < |r'.log| && HandledHolds(r', s, k) {
      HandledStays(r, r', s, k);
    }
    forall name | name in s.peers ensures Named(r'.sessions, name) {
      NamesStay(r, r', name, s.token);
    }
    NamesStay(r, r', s.username, s.token);
  }

  /** One more signal at the end of the log. */
  lemma Appended(log: seq<string>, signal: Signal)
    requires PlainSignal(signal)
    ensures
      var after := log + [Text(signal)];
      && Parse(after[|log|]) == signal && after[..|log|] == log
      && forall from :: 0 <= from <= |log| ==> Sent(after, from, signal)
  {
    SignalRoundTrip(signal);
    var after := log + [Text(signal)];
    assert Parse(after[|log|]) == signal;
  }

  /** What a reaction leaves true of the session that had it. */
  lemma ReactionHolds(r: Room, i: nat, k: nat)
    requires Inv(r) && Enabled(r, Handle(i, k))
    ensures
      var r' := Next(r, Handle(i, k));
      && Continues(r, r') && HandledHolds(r', r'.sessions[i], k)
      && (forall n :: |r.log| <= n < |r'.log| ==> EntryHolds(r', n))
  {
    var s, text := r.sessions[i], r.log[k];
    var r' := Next(r, Handle(i, k));
    assert SessionHolds(r, s) && EntryHolds(r, k);
    assert r'.log[k] == r.log[k];
    match Parse(text)
    case Join(sender, token) =>
      if sender == s.username && token == s.token {
      } else {
        var answer := if sender == s.username then DuplicateUser(s.username, sender, token) else Welcome(s.username, sender, token);
        Appended(r.log, answer);
        assert r'.log == r.log + [Text(answer)];
        assert Sent(r.log, 0, Join(sender, token));
        assert r'.sessions[i].username == s.username && r'.sessions[i].token == s.token;
      }
    case _ =>
  }

  /** What a session learns is true. */
  lemma LearnsTheTruth(r: Room, i: nat, k: nat)
    requires Inv(r) && Enabled(r, Handle(i, k))
    ensures
      var s' := Reaction(r.sessions[i], r.log[k]).0;
      && (forall name :: name in s'.peers ==> name != s'.username && Named(r.sessions, name))
      && (s'.toldDuplicate ==> NamedOther(r.sessions, s'.username, s'.token))
  {
    assert SessionHolds(r, r.sessions[i]) && EntryHolds(r, k);
  }

  /** The session has come to know more and has handled one more signal. */
  ghost predicate Wiser(s: Session, s': Session, k: nat) {
    && s'.username == s.username && s'.token == s.token && s'.subscribedAt == s.subscribedAt && s'.joinedAt == s.joinedAt
    && s.peers <= s'.peers && (s.toldDuplicate ==> s'.toldDuplicate) && s'.handled == s.handled + {k}
  }

  lemma WiserHolds(r: Room, s: Session, s': Session, k: nat)
    requires SessionHolds(r, s) && Wiser(s, s', k) && k < |r.log| && HandledHolds(r, s', k)
    requires forall name :: name in s'.peers ==> name != s'.username && Named(r.sessions, name)
    requires s'.toldDuplicate ==> NamedOther(r.sessions, s'.username, s'.token)
    ensures SessionHolds(r, s')
  {
    forall n | n in s'.handled ensures n < |r.log| && HandledHolds(r, s', n) {}
  }

  /** The session that had the reaction stays right, with what it learned and answered. */
  lemma HandlerHolds(r: Room, i: nat, k: nat, r': Room)
    requires Inv(r) && Enabled(r, Handle(i, k)) && r' == Next(r, Handle(i, k))
    requires Continues(r, r') && HandledHolds(r', r'.sessions[i], k) && SessionHolds(r', r.sessions[i])
    ensures SessionHolds(r', r'.sessions[i])
  {
    var s, s' := r.sessions[i], r'.sessions[i];
    LearnsTheTruth(r, i, k);
    forall name | name in s'.peers ensures name != s'.username && Named(r'.sessions, name) {
      NamesStay(r, r', name, s.token);
    }
    NamesStay(r, r', s.username, s.token);
    WiserHolds(r', s, s', k);
  }

  lemma EntriesStay(r: Room, r': Room)
    requires Inv(r) && Continues(r, r') && forall n :: |r.log| <= n < |r'.log| ==> EntryHolds(r', n)
    ensures forall n :: 0 <= n < |r'.log| ==> EntryHolds(r', n)
  {
    forall n | 0 <= n < |r.log| ensures EntryHolds(r', n) {
      EntryStays(r, r', n);
    }
  }

  lemma HandleKeepsInv(r: Room, i: nat, k: nat)
    requires Inv(r) && Enabled(r, Handle(i, k))
    ensures Inv(Next(r, Handle(i, k)))
  {
    var r' := Next(r, Handle(i, k));
    ReactionHolds(r, i, k);
    forall j | 0 <= j < |r'.sessions| ensures SessionHolds(r', r'.sessions[j]) {
      SessionStays(r, r', r.sessions[j]);
      if j == i {
        HandlerHolds(r, i, k, r');
      }
    }
    EntriesStay(r, r');
  }

  lemma JoinKeepsInv(r: Room, i: nat)
    requires Inv(r) && Enabled(r, SendJoin(i))
    ensures Inv(Next(r, SendJoin(i)))
  {
    var r' := Next(r, SendJoin(i));
    var s, s' := r.sessions[i], r'.sessions[i];
    assert SessionHolds(r, s);
    Appended(r.log, Join(s.username, s.token));
    assert Continues(r, r');
    forall j | 0 <= j < |r'.sessions| ensures SessionHolds(r', r'.sessions[j]) {
      SessionStays(r, r', r.sessions[j]);
    }
    forall n | 0 <= n < |r'.log| ensures EntryHolds(r', n) {
      if n < |r.log| {
        EntryStays(r, r', n);
      } else {
        assert r'.sessions[i].username == s.username && r'.sessions[i].token == s.token;
      }
    }
  }

  lemma SubscribeKeepsInv(r: Room, i: nat)
    requires Inv(r) && Enabled(r, Subscribe(i))
    ensures Inv(Next(r, Subscribe(i)))
  {
    var r' := Next(r, Subscribe(i));
    assert Continues(r, r');
    forall j | 0 <= j < |r'.sessions| ensures SessionHolds(r', r'.sessions[j]) {
      SessionStays(r, r', r.sessions[j]);
    }
    forall n | 0 <= n < |r'.log| ensures EntryHolds(r', n) {
      EntryStays(r, r', n);
    }
  }

  lemma {:induction false} RunKeepsInv(rooms: seq<Room>, steps: seq<Step>, n: nat)
    requires IsRun(rooms, steps) && n < |rooms|
    ensures Inv(rooms[n])
  {
    if n > 0 {
      RunKeepsInv(rooms, steps, n - 1);
      match steps[n - 1]
      case Subscribe(i) => SubscribeKeepsInv(rooms[n - 1], i);
      case SendJoin(i) => JoinKeepsInv(rooms[n - 1], i);
      case Handle(i, k) => HandleKeepsInv(rooms[n - 1], i, k);
    }
  }

  // ---- Discovery ----

  /** Everything that reached a session has been handled. */
  ghost predicate Quiet(r: Room) {
    forall i, k :: 0 <= i < |r.sessions| && r.sessions[i].subscribedAt.Some? && r.sessions[i].subscribedAt.value <= k < |r.log|
      ==> k in r.sessions[i].handled
  }

  /** The earlier joiner learns of the later one, and its answer reaches the later one. */
  lemma EarlierMeetsLater(r: Room, i: nat, j: nat)
    requires Inv(r) && Quiet(r) && i < |r.sessions| && j < |r.sessions|
    requires r.sessions[i].joinedAt.Some? && r.sessions[j].joinedAt.Some?
    requires r.sessions[i].joinedAt.value < r.sessions[j].joinedAt.value
    ensures r.sessions[i].username != r.sessions[j].username ==>
      r.sessions[j].username in r.sessions[i].peers && r.sessions[i].username in r.sessions[j].peers
    ensures r.sessions[i].username == r.sessions[j].username && r.sessions[i].token != r.sessions[j].token ==> r.sessions[j].toldDuplicate
  {
    var a, b := r.sessions[i], r.sessions[j];
    assert SessionHolds(r, a) && SessionHolds(r, b);
    var k := b.joinedAt.value;
    assert k in a.handled && HandledHolds(r, a, k);
    var answer := if a.username != b.username then Welcome(a.username, b.username, b.token)
                  else DuplicateUser(a.username, b.username, b.token);
    if a.username != b.username || a.token != b.token {
      var w :| k + 1 <= w < |r.log| && Parse(r.log[w]) == answer;
      assert w in b.handled && HandledHolds(r, b, w);
    }
  }

  /**
   In every run, once every signal that was sent has been handled: any two sessions of
   different names that have joined know each other, and of two of the same name the
   later one has been told it is a duplicate.
   */
  lemma NoPairIsMissed(rooms: seq<Room>, steps: seq<Step>, n: nat, i: nat, j: nat)
    requires IsRun(rooms, steps) && n < |rooms| && Quiet(rooms[n])
    requires i < |rooms[n].sessions| && j < |rooms[n].sessions| && i != j
    requires rooms[n].sessions[i].joinedAt.Some? && rooms[n].sessions[j].joinedAt.Some?
    ensures
      var a, b := rooms[n].sessions[i], rooms[n].sessions[j];
      && a.joinedAt != b.joinedAt
      && (a.username != b.username ==> b.username in a.peers && a.username in b.peers)
      && (a.username == b.username ==> if a.joinedAt.value < b.joinedAt.value then b.toldDuplicate else a.toldDuplicate)
  {
    var r := rooms[n];
    RunKeepsInv(rooms, steps, n);
    var a, b := r.sessions[i], r.sessions[j];
    assert SessionHolds(r, a) && SessionHolds(r, b);
    assert a.token != b.token by {
      assert r.sessions[if i < j then i else j].token != r.sessions[if i < j then j else i].token;
    }
    if a.joinedAt.value < b.joinedAt.value {
      EarlierMeetsLater(r, i, j);
    } else if b.joinedAt.value < a.joinedAt.value {
      EarlierMeetsLater(r, j, i);
    }
  }

  /** At any moment of any run, nobody is told of a peer or a duplicate that is not there. */
  lemma NothingIsInvented(rooms: seq<Room>, steps: seq<Step>, n: nat, i: nat)
    requires IsRun(rooms, steps) && n < |rooms| && i < |rooms[n].sessions|
    ensures
      var sessions, s := rooms[n].sessions, rooms[n].sessions[i];
      && (forall name :: name in s.peers ==> name != s.username && Named(sessions, name))
      && (s.toldDuplicate ==> NamedOther(sessions, s.username, s.token))
  {
    RunKeepsInv(rooms, steps, n);
    assert SessionHolds(rooms[n], rooms[n].sessions[i]);
  }

  /** Every welcome and every duplicate_user in the log answers an earlier join of its receiver. */
  lemma EveryAnswerHasItsJoin(rooms: seq<Room>, steps: seq<Step>, n: nat, k: nat)
    requires IsRun(rooms, steps) && n < |rooms| && k < |rooms[n].log|
    ensures
      match Parse(rooms[n].log[k])
      case Welcome(_, receiver, token) => Sent(rooms[n].log[..k], 0, Join(receiver, token))
      case DuplicateUser(_, receiver, token) => Sent(rooms[n].log[..k], 0, Join(receiver, token))
      case Join(_, _) => true
      case Unknown => false
  {
    RunKeepsInv(rooms, steps, n);
    assert EntryHolds(rooms[n], k);
  }
}
