/**
 The event hub (internal/sse/hub.go): subscriber channels with sixteen slots, filled under a mutex by publishers,
 drained and closed outside it by the streams. Channels are handles; every channel operation is one step.
 */
module Hub {
  import opened Common

  const CAPACITY := 16

  datatype Message = Message(ticket: int, event: string, payload: string)

  /** Unlisted: the stream has taken its channel off the subscriber map and has yet to close it. */
  datatype Phase = Streaming | Unlisted | Closed

  datatype Chan = Chan(user: int, phase: Phase, buffer: seq<Message>, received: seq<Message>)

  type Subscribers = map<int, set<int>>

  /** The publisher that holds the mutex, if any, and the channels it has yet to visit. */
  datatype Publisher = Idle | Sending(msg: Message, todo: set<int>)

  datatype World = World(subscribers: Subscribers, chans: map<int, Chan>, publisher: Publisher, panicked: bool)

  datatype Label =
    | Subscribe(c: int, user: int)
    | Lock(recipients: set<int>, msg: Message)
    | Offer(c: int)
    | Unlock
    | Receive(c: int)
    | Unlist(c: int)
    | Close(c: int)

  const EMPTY := World(map[], map[], Idle, false)

  function Targets(subscribers: Subscribers, recipients: set<int>): set<int>
  {
    set u, c | u in recipients && u in subscribers && c in subscribers[u] :: c
  }

  function Listed(subscribers: Subscribers, user: int): set<int>
  {
    if user in subscribers then subscribers[user] else {}
  }

  function Dropping(subscribers: Subscribers, user: int, c: int): Subscribers
  {
    var left := Listed(subscribers, user) - {c};
    if left == {} then subscribers - {user} else subscribers[user := left]
  }

  /** A send that does not block: a full channel misses the message. */
  function Sent(ch: Chan, msg: Message): Chan
  {
    if |ch.buffer| < CAPACITY then ch.(buffer := ch.buffer + [msg]) else ch
  }

  predicate InPhase(s: World, c: int, phase: Phase) { c in s.chans && s.chans[c].phase == phase }

  predicate Enabled(s: World, l: Label)
  {
    match l
    case Subscribe(c, _) => s.publisher.Idle? && c !in s.chans
    case Lock(_, _) => s.publisher.Idle?
    case Offer(c) => s.publisher.Sending? && c in s.publisher.todo
    case Unlock => s.publisher.Sending? && s.publisher.todo == {}
    case Receive(c) => InPhase(s, c, Streaming) && s.chans[c].buffer != []
    case Unlist(c) => s.publisher.Idle? && InPhase(s, c, Streaming)
    case Close(c) => InPhase(s, c, Unlisted)
  }

  /** Sending to a closed channel panics. */
  function Apply(s: World, l: Label): World
    requires Enabled(s, l)
  {
    match l
    case Subscribe(c, user) =>
      s.(subscribers := s.subscribers[user := Listed(s.subscribers, user) + {c}],
         chans := s.chans[c := Chan(user, Streaming, [], [])])
    case Lock(recipients, msg) => s.(publisher := Sending(msg, Targets(s.subscribers, recipients)))
    case Offer(c) =>
      var left := s.(publisher := s.publisher.(todo := s.publisher.todo - {c}));
      if c !in s.chans || s.chans[c].phase.Closed? then left.(panicked := true)
      else left.(chans := s.chans[c := Sent(s.chans[c], s.publisher.msg)])
    case Unlock => s.(publisher := Idle)
    case Receive(c) =>
      var ch := s.chans[c];
      s.(chans := s.chans[c := ch.(buffer := ch.buffer[1..], received := ch.received + [ch.buffer[0]])])
    case Unlist(c) =>
      s.(subscribers := Dropping(s.subscribers, s.chans[c].user, c), chans := s.chans[c := s.chans[c].(phase := Unlisted)])
    case Close(c) => s.(chans := s.chans[c := s.chans[c].(phase := Closed)])
  }

  predicate Valid(s: World, ls: seq<Label>)
    decreases ls
  {
    ls == [] || (Enabled(s, ls[0]) && Valid(Apply(s, ls[0]), ls[1..]))
  }

  function Run(s: World, ls: seq<Label>): World
    requires Valid(s, ls)
    decreases ls
  {
    if ls == [] then s else Run(Apply(s, ls[0]), ls[1..])
  }

  // ---------------------------------------------------------------- safety

  /** The map lists exactly the streaming channels, each under its own user, and keeps no empty set. */
  predicate MapInv(subscribers: Subscribers, chans: map<int, Chan>)
  {
    && (forall u :: u in subscribers ==> subscribers[u] != {})
    && (forall u, c :: u in subscribers && c in subscribers[u] ==>
          c in chans && chans[c].user == u && chans[c].phase == Streaming)
    && (forall c :: c in chans && chans[c].phase == Streaming ==>
          chans[c].user in subscribers && c in subscribers[chans[c].user])
    && (forall c :: c in chans ==> |chans[c].buffer| <= CAPACITY)
  }

  predicate HubInv(s: World)
  {
    && !s.panicked
    && MapInv(s.subscribers, s.chans)
    && (s.publisher.Sending? ==> forall c :: c in s.publisher.todo ==> InPhase(s, c, Streaming))
  }

  lemma UnlistKeepsHub(s: World, c: int)
    requires HubInv(s) && Enabled(s, Unlist(c))
    ensures HubInv(Apply(s, Unlist(c)))
  {
    var user := s.chans[c].user;
    forall d | InPhase(s, d, Streaming) && d != c && s.chans[d].user == user
      ensures d in Listed(s.subscribers, user) - {c}
    {
    }
  }

  lemma OtherKeepsHub(s: World, l: Label)
    requires HubInv(s) && Enabled(s, l) && !l.Unlist?
    ensures HubInv(Apply(s, l))
  {
  }

  lemma StepKeepsHub(s: World, l: Label)
    requires HubInv(s) && Enabled(s, l)
    ensures HubInv(Apply(s, l))
  {
    if l.Unlist? {
      UnlistKeepsHub(s, l.c);
    } else {
      OtherKeepsHub(s, l);
    }
  }

  /**
   MAIN RESULT. Streams come and go between and during publications, yet no send ever reaches a closed channel, and
   the subscriber map lists exactly the streaming channels with no empty set left behind.
   */
  lemma {:induction false} NoSendAfterClose(s: World, ls: seq<Label>)
    requires HubInv(s) && Valid(s, ls)
    ensures HubInv(Run(s, ls))
    decreases ls
  {
    if ls != [] {
      StepKeepsHub(s, ls[0]);
      NoSendAfterClose(Apply(s, ls[0]), ls[1..]);
    }
  }

  // ---------------------------------------------------------------- delivery

  /** What a publisher found on visiting a channel: the message it brought, and how many were unread. */
  datatype Visit = Visit(msg: Message, backlog: nat)

  function Visits(s: World, ls: seq<Label>, c: int): seq<Visit>
    decreases ls
  {
    if ls == [] || !Enabled(s, ls[0]) then []
    else
      (if ls[0] == Offer(c) && c in s.chans then [Visit(s.publisher.msg, |s.chans[c].buffer|)] else [])
      + Visits(Apply(s, ls[0]), ls[1..], c)
  }

  /** The messages published to the user of channel `c` while it streams, read off the labels alone. */
  function Published(ls: seq<Label>, c: int, listener: Option<int>): seq<Message>
    decreases ls
  {
    if ls == [] then []
    else if ls[0].Subscribe? && ls[0].c == c then Published(ls[1..], c, Some(ls[0].user))
    else if ls[0] == Unlist(c) then Published(ls[1..], c, None)
    else if ls[0].Lock? && listener.Some? && listener.value in ls[0].recipients then
      [ls[0].msg] + Published(ls[1..], c, listener)
    else Published(ls[1..], c, listener)
  }

  function Brought(visits: seq<Visit>): seq<Message>
  {
    if visits == [] then [] else [visits[0].msg] + Brought(visits[1..])
  }

  function Kept(visits: seq<Visit>): seq<Message>
  {
    if visits == [] then []
    else if visits[0].backlog < CAPACITY then [visits[0].msg] + Kept(visits[1..])
    else Kept(visits[1..])
  }

  function Stream(s: World, c: int): seq<Message>
  {
    if c in s.chans then s.chans[c].received + s.chans[c].buffer else []
  }

  function Pending(s: World, c: int): seq<Message>
  {
    if s.publisher.Sending? && c in s.publisher.todo then [s.publisher.msg] else []
  }

  function Listener(s: World, c: int): Option<int>
  {
    if InPhase(s, c, Streaming) then Some(s.chans[c].user) else None
  }

  lemma StepStreams(s: World, l: Label, c: int)
    requires HubInv(s) && Enabled(s, l)
    ensures Stream(Apply(s, l), c) == Stream(s, c) + Kept(Visits(s, [l], c))
  {
    assert [l][1..] == [];
    if l == Receive(c) {
      var ch := s.chans[c];
      assert ch.received + [ch.buffer[0]] + ch.buffer[1..] == ch.received + ch.buffer;
    }
  }

  lemma {:induction false} KeptConcat(a: seq<Visit>, b: seq<Visit>)
    ensures Kept(a + b) == Kept(a) + Kept(b)
  {
    if a == [] {
      assert a + b == b;
    } else {
      assert (a + b)[1..] == a[1..] + b;
      KeptConcat(a[1..], b);
    }
  }

  lemma VisitsHead(s: World, ls: seq<Label>, c: int)
    requires Valid(s, ls) && ls != []
    ensures Visits(s, ls, c) == Visits(s, [ls[0]], c) + Visits(Apply(s, ls[0]), ls[1..], c)
  {
    assert [ls[0]][1..] == [];
  }

  /** Read and unread messages together are exactly the visits that found a free slot, in order. */
  lemma {:induction false} StreamIsKept(s: World, ls: seq<Label>, c: int)
    requires HubInv(s) && Valid(s, ls)
    ensures Stream(Run(s, ls), c) == Stream(s, c) + Kept(Visits(s, ls, c))
    decreases ls
  {
    if ls != [] {
      var next := Apply(s, ls[0]);
      StepKeepsHub(s, ls[0]);
      StepStreams(s, ls[0], c);
      StreamIsKept(next, ls[1..], c);
      VisitsHead(s, ls, c);
      KeptConcat(Visits(s, [ls[0]], c), Visits(next, ls[1..], c));
      Assoc(Stream(s, c), Kept(Visits(s, [ls[0]], c)), Kept(Visits(next, ls[1..], c)));
    }
  }

  lemma TargetsAre(s: World, recipients: set<int>, c: int)
    requires HubInv(s)
    ensures c in Targets(s.subscribers, recipients) <==> Listener(s, c).Some? && Listener(s, c).value in recipients
  {
    if InPhase(s, c, Streaming) {
      var u := s.chans[c].user;
      assert u in s.subscribers && c in s.subscribers[u];
    }
  }

  /** A publication waits for the listener, or passes `c` by. */
  lemma LockBrings(s: World, ls: seq<Label>, c: int)
    requires HubInv(s) && Valid(s, ls) && ls != [] && ls[0].Lock?
    ensures Pending(s, c) + Published(ls, c, Listener(s, c))
         == Pending(Apply(s, ls[0]), c) + Published(ls[1..], c, Listener(Apply(s, ls[0]), c))
  {
    TargetsAre(s, ls[0].recipients, c);
  }

  /** One step moves a message to or from the pending visit of `c`, and the listener as the labels say. */
  lemma StepBrings(s: World, ls: seq<Label>, c: int)
    requires HubInv(s) && Valid(s, ls) && ls != []
    ensures var next := Apply(s, ls[0]);
            Pending(s, c) + Published(ls, c, Listener(s, c))
            == Brought(Visits(s, [ls[0]], c)) + (Pending(next, c) + Published(ls[1..], c, Listener(next, c)))
  {
    var next := Apply(s, ls[0]);
    assert [ls[0]][1..] == [];
    if ls[0].Lock? {
      LockBrings(s, ls, c);
      assert Visits(s, [ls[0]], c) == [];
      assert [] + (Pending(next, c) + Published(ls[1..], c, Listener(next, c))) == Pending(next, c) + Published(ls[1..], c, Listener(next, c));
    }
  }

  lemma {:induction false} BroughtConcat(a: seq<Visit>, b: seq<Visit>)
    ensures Brought(a + b) == Brought(a) + Brought(b)
  {
    if a == [] {
      assert a + b == b;
    } else {
      assert (a + b)[1..] == a[1..] + b;
      BroughtConcat(a[1..], b);
    }
  }

  /** Publishers visit `c` with exactly the messages published to its user while it streamed, in order. */
  lemma {:induction false} VisitsArePublished(s: World, ls: seq<Label>, c: int)
    requires HubInv(s) && Valid(s, ls)
    ensures Brought(Visits(s, ls, c)) + Pending(Run(s, ls), c) == Pending(s, c) + Published(ls, c, Listener(s, c))
    decreases ls
  {
    if ls != [] {
      var next := Apply(s, ls[0]);
      StepKeepsHub(s, ls[0]);
      VisitsArePublished(next, ls[1..], c);
      StepBrings(s, ls, c);
      VisitsHead(s, ls, c);
      BroughtConcat(Visits(s, [ls[0]], c), Visits(next, ls[1..], c));
      Assoc(Brought(Visits(s, [ls[0]], c)), Brought(Visits(next, ls[1..], c)), Pending(Run(s, ls), c));
    }
  }

  lemma {:induction false} BacklogBounded(s: World, ls: seq<Label>, c: int)
    requires HubInv(s) && Valid(s, ls)
    ensures forall v :: v in Visits(s, ls, c) ==> v.backlog <= CAPACITY
    decreases ls
  {
    if ls != [] {
      StepKeepsHub(s, ls[0]);
      BacklogBounded(Apply(s, ls[0]), ls[1..], c);
    }
  }

  /**
   MAIN RESULT. From the empty hub, whatever is interleaved: when no publisher is about to visit `c`, what its stream
   has read and still holds unread is what was published to its user while it streamed, in order, less exactly the
   messages that found sixteen unread ones.
   */
  lemma StreamTellsWhatWasPublished(ls: seq<Label>, c: int)
    requires Valid(EMPTY, ls) && Pending(Run(EMPTY, ls), c) == []
    ensures var visits := Visits(EMPTY, ls, c);
            && Brought(visits) == Published(ls, c, None)
            && Stream(Run(EMPTY, ls), c) == Kept(visits)
            && forall v :: v in visits ==> v.backlog <= 16
  {
    VisitsArePublished(EMPTY, ls, c);
    StreamIsKept(EMPTY, ls, c);
    BacklogBounded(EMPTY, ls, c);
    var brought := Brought(Visits(EMPTY, ls, c));
    assert brought + [] == brought;
  }

  lemma {:induction false} NothingLostWhenShort(s: World, ls: seq<Label>, c: int)
    requires HubInv(s) && Valid(s, ls)
    requires |Stream(s, c)| + |Visits(s, ls, c)| <= CAPACITY
    ensures Kept(Visits(s, ls, c)) == Brought(Visits(s, ls, c))
    decreases ls
  {
    if ls != [] {
      StepKeepsHub(s, ls[0]);
      StepStreams(s, ls[0], c);
      VisitsHead(s, ls, c);
      assert [ls[0]][1..] == [];
      var here, rest := Visits(s, [ls[0]], c), Visits(Apply(s, ls[0]), ls[1..], c);
      NothingLostWhenShort(Apply(s, ls[0]), ls[1..], c);
      KeptConcat(here, rest);
      BroughtConcat(here, rest);
    }
  }

  lemma {:induction false} BroughtLength(visits: seq<Visit>)
    ensures |Brought(visits)| == |visits|
  {
    if visits != [] {
      BroughtLength(visits[1..]);
    }
  }

  /** A stream misses nothing out of its first sixteen messages, however slow it reads. */
  lemma FirstSixteenArrive(ls: seq<Label>, c: int)
    requires Valid(EMPTY, ls) && Pending(Run(EMPTY, ls), c) == [] && |Published(ls, c, None)| <= 16
    ensures Stream(Run(EMPTY, ls), c) == Published(ls, c, None)
  {
    StreamTellsWhatWasPublished(ls, c);
    BroughtLength(Visits(EMPTY, ls, c));
    NothingLostWhenShort(EMPTY, ls, c);
  }

  // ---------------------------------------------------------------- one publication

  function Fanned(chans: map<int, Chan>, targets: set<int>, msg: Message): map<int, Chan>
  {
    map c | c in chans :: if c in targets then Sent(chans[c], msg) else chans[c]
  }

  /** The order in which a publisher visits its channels does not matter. */
  lemma {:induction false} VisitOrderIsIrrelevant(s: World, ls: seq<Label>)
    requires HubInv(s) && s.publisher.Sending? && Valid(s, ls)
    requires forall l :: l in ls ==> l.Offer?
    requires Run(s, ls).publisher.Sending? && Run(s, ls).publisher.todo == {}
    ensures Run(s, ls).chans == Fanned(s.chans, s.publisher.todo, s.publisher.msg)
    ensures Run(s, ls).subscribers == s.subscribers
    decreases ls
  {
    if ls != [] {
      StepKeepsHub(s, ls[0]);
      VisitOrderIsIrrelevant(Apply(s, ls[0]), ls[1..]);
    }
  }

  lemma FannedTwice(chans: map<int, Chan>, a: set<int>, b: set<int>, msg: Message)
    requires a !! b
    ensures Fanned(Fanned(chans, a, msg), b, msg) == Fanned(chans, a + b, msg)
  {
  }

  /** A channel has one user, so no recipient's channels were visited before. */
  lemma TargetsGrow(subscribers: Subscribers, chans: map<int, Chan>, recipients: set<int>, u: int)
    requires MapInv(subscribers, chans) && u !in recipients
    ensures Targets(subscribers, recipients + {u}) == Targets(subscribers, recipients) + Listed(subscribers, u)
    ensures Targets(subscribers, recipients) !! Listed(subscribers, u)
  {
    var before, after := Targets(subscribers, recipients), Targets(subscribers, recipients + {u});
    forall c | c in before ensures c in after && c !in Listed(subscribers, u) {
      var v :| v in recipients && v in subscribers && c in subscribers[v];
      assert v in recipients + {u} && chans[c].user == v;
      if c in Listed(subscribers, u) {
        assert false;
      }
    }
    forall c | c in Listed(subscribers, u) ensures c in after {
      assert u in recipients + {u} && u in subscribers;
    }
    forall c | c in after ensures c in before + Listed(subscribers, u) {
      var v :| v in recipients + {u} && v in subscribers && c in subscribers[v];
      if v != u {
        assert v in recipients;
      }
    }
  }

  class Hub {
    var subscribers: Subscribers
    var chans: map<int, Chan>
    var next: int // handles not given out yet

    ghost predicate Valid()
      reads this
    {
      MapInv(subscribers, chans) && forall c :: c in chans ==> c < next
    }

    ghost function State(): World
      reads this
    {
      World(subscribers, chans, Idle, false)
    }

    constructor ()
      ensures Valid() && State() == EMPTY
    {
      subscribers, chans, next := map[], map[], 0;
    }

    method SubscribeUser(user: int) returns (c: int)
      requires Valid()
      modifies this
      ensures Valid() && c !in old(chans)
      ensures State() == Apply(old(State()), Subscribe(c, user))
    {
      ghost var before := State();
      c := next;
      next := next + 1;
      chans := chans[c := Chan(user, Streaming, [], [])];
      if user !in subscribers {
        subscribers := subscribers[user := {}];
      }
      subscribers := subscribers[user := subscribers[user] + {c}];
      assert subscribers == before.subscribers[user := Listed(before.subscribers, user) + {c}];
      StepKeepsHub(before, Subscribe(c, user));
    }

    /** The function a stream defers: off the map under the mutex, then closed outside it. */
    method Cancel(c: int)
      requires Valid() && c in chans && chans[c].phase.Streaming?
      modifies this
      ensures Valid() && State() == Run(old(State()), [Unlist(c), Close(c)])
    {
      ghost var before := State();
      var user := chans[c].user;
      subscribers := subscribers[user := subscribers[user] - {c}];
      if |subscribers[user]| == 0 {
        subscribers := subscribers - {user};
      }
      chans := chans[c := chans[c].(phase := Unlisted)];
      assert subscribers == Dropping(before.subscribers, user, c);
      StepKeepsHub(before, Unlist(c));
      ghost var between := State();
      chans := chans[c := chans[c].(phase := Closed)];
      StepKeepsHub(between, Close(c));
      assert [Unlist(c), Close(c)][1..] == [Close(c)] && [Close(c)][1..] == [];
      assert Run(between, [Close(c)]) == State();
    }

    method ReceiveFrom(c: int) returns (msg: Message)
      requires Valid() && c in chans && chans[c].phase.Streaming? && chans[c].buffer != []
      modifies this`chans
      ensures Valid() && msg == old(chans[c].buffer[0]) && State() == Apply(old(State()), Receive(c))
    {
      ghost var before := State();
      var ch := chans[c];
      msg := ch.buffer[0];
      chans := chans[c := ch.(buffer := ch.buffer[1..], received := ch.received + [msg])];
      StepKeepsHub(before, Receive(c));
    }

    /** Sending to a closed channel would panic, so that is the caller's duty to rule out. */
    method Send(c: int, msg: Message)
      requires c in chans && !chans[c].phase.Closed?
      modifies this`chans
      ensures chans == old(chans)[c := Sent(old(chans)[c], msg)]
    {
      var ch := chans[c];
      if |ch.buffer| < CAPACITY {
        chans := chans[c := ch.(buffer := ch.buffer + [msg])];
      } else {
        assert chans == chans[c := ch];
      }
    }

    /** The channels of one user, in any order. */
    method Broadcast(targets: set<int>, msg: Message)
      requires forall c :: c in targets ==> c in chans && !chans[c].phase.Closed?
      modifies this`chans
      ensures chans == Fanned(old(chans), targets, msg)
    {
      var todo := targets;
      while exists c :: c in todo
        invariant todo <= targets
        invariant chans == Fanned(old(chans), targets - todo, msg)
        decreases todo
      {
        var c :| c in todo;
        Send(c, msg);
        todo := todo - {c};
      }
      assert targets - todo == targets;
    }

    /** Watchers of the ticket plus its assignee; a lookup that failed contributes nobody. */
    method Publish(watchers: seq<int>, assignee: Option<int>, msg: Message)
      requires Valid()
      modifies this`chans
      ensures Valid()
      ensures var recipients := (set u | u in watchers) + (if assignee.Some? then {assignee.value} else {});
              chans == Fanned(old(chans), Targets(subscribers, recipients), msg)
    {
      var recipients: set<int> := {};
      var i := 0;
      while i < |watchers|
        invariant 0 <= i <= |watchers| && recipients == set u | u in watchers[..i]
        invariant chans == old(chans)
      {
        assert watchers[..i + 1] == watchers[..i] + [watchers[i]];
        recipients := recipients + {watchers[i]};
        i := i + 1;
      }
      assert watchers[..i] == watchers;
      if assignee.Some? {
        recipients := recipients + {assignee.value};
      }
      var todo := recipients;
      while exists u :: u in todo
        invariant todo <= recipients
        invariant chans == Fanned(old(chans), Targets(subscribers, recipients - todo), msg)
        decreases todo
      {
        var u :| u in todo;
        ghost var done := recipients - todo;
        assert recipients - (todo - {u}) == done + {u};
        TargetsGrow(subscribers, old(chans), done, u);
        FannedTwice(old(chans), Targets(subscribers, done), Listed(subscribers, u), msg);
        if u in subscribers {
          Broadcast(subscribers[u], msg);
        }
        todo := todo - {u};
      }
      assert recipients - todo == recipients;
    }
  }
}
