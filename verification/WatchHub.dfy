/** The WebSocket hub: who is registered, what reaches each client's channel, and what the write
    pump makes of it. */
module WatchHub {
  import opened Wrappers
  import opened Seqs
  import Text

  const SEND_BUFFER := 256

  /** A broadcast message; `topic` is "clusterId:resource" when the body parses as an event. */
  datatype Message = Message(body: string, topic: Option<string>)

  predicate IsSubscribed(topics: set<string>, m: Message) {
    topics == {} || m.topic.None? || m.topic.value in topics
  }

  // ----- the hub's event loop -----

  /** A client's channel. Sending on a closed channel, or closing it again, panics in Go, so both
      require it to be open. */
  class Client {
    var open: bool
    var send: seq<Message>

    constructor ()
      ensures open && send == []
    {
      open, send := true, [];
    }

    method TrySend(m: Message) returns (sent: bool)
      requires open
      modifies this
      ensures open && sent == (|old(send)| < 256)
      ensures send == if sent then old(send) + [m] else old(send)
    {
      sent := |send| < SEND_BUFFER;
      if sent { send := send + [m]; }
    }

    method Close()
      requires open
      modifies this
      ensures !open && send == old(send)
    {
      open := false;
    }
  }

  class Hub {
    var clients: set<Client>

    /** Registered means open. */
    ghost predicate Valid()
      reads this, clients
    {
      forall c | c in clients :: c.open
    }

    constructor ()
      ensures Valid() && clients == {}
    {
      clients := {};
    }

    method Register(client: Client)
      requires Valid() && client.open
      modifies this
      ensures Valid() && clients == old(clients) + {client}
    {
      clients := clients + {client};
    }

    method Unregister(client: Client)
      requires Valid()
      modifies this, client
      ensures Valid() && clients == old(clients) - {client} && client.send == old(client.send)
      ensures client.open == (old(client.open) && client !in old(clients))
    {
      if client in clients {
        clients := clients - {client};
        client.Close();
      }
    }

    /** Clients whose buffer is full are closed and dropped, all others get the message. */
    method Broadcast(m: Message)
      requires Valid()
      modifies this, clients
      ensures Valid() && clients <= old(clients)
      ensures forall c | c in old(clients) :: c in clients <==> |old(c.send)| < 256
      ensures forall c | c in old(clients) :: c.open == (c in clients)
      ensures forall c | c in old(clients) :: c.send == if c in clients then old(c.send) + [m] else old(c.send)
    {
      var todo := clients;
      while todo != {}
        invariant todo <= clients <= old(clients) && (forall c | c in clients :: c.open)
        invariant forall c | c in todo :: c.send == old(c.send)
        invariant forall c | c in old(clients) && c !in todo :: c in clients <==> |old(c.send)| < SEND_BUFFER
        invariant forall c | c in old(clients) && c !in todo :: c.open == (c in clients)
        invariant forall c | c in old(clients) && c !in todo ::
          c.send == if c in clients then old(c.send) + [m] else old(c.send)
        decreases todo
      {
        var c :| c in todo;
        todo := todo - {c};
        var sent := c.TrySend(m);
        if !sent {
          c.Close();
          clients := clients - {c};
        }
      }
    }

    method Stop()
      requires Valid()
      modifies this, clients
      ensures Valid() && clients == {}
      ensures forall c | c in old(clients) :: !c.open && c.send == old(c.send)
    {
      while clients != {}
        invariant clients <= old(clients) && (forall c | c in clients :: c.open)
        invariant forall c | c in old(clients) :: c.send == old(c.send)
        invariant forall c | c in old(clients) && c !in clients :: !c.open
        decreases clients
      {
        var c :| c in clients;
        clients := clients - {c};
        c.Close();
      }
    }
  }

  // ----- all runs: hub events interleaved with the clients' receives -----

  type ClientId = nat

  /** `sent` is everything ever put on the channel and `taken` how much of it has been received. */
  datatype Channel = Channel(inMap: bool, open: bool, closes: nat, from: nat, sent: seq<Message>, taken: nat)

  function Buffered(ch: Channel): int { |ch.sent| - ch.taken }

  datatype State = State(channels: map<ClientId, Channel>, log: seq<Message>, stopped: bool, panicked: bool)

  function Init(): State { State(map[], [], false, false) }

  datatype Event =
    | Register(c: ClientId)          // each connection registers once
    | Unregister(c: ClientId)
    | Broadcast(m: Message)
    | Receive(c: ClientId)
    | Stop

  predicate Enabled(s: State, e: Event) {
    match e
    case Register(c) => !s.stopped && c !in s.channels
    case Unregister(c) => !s.stopped && c in s.channels
    case Broadcast(_) => !s.stopped
    case Receive(c) => c in s.channels && Buffered(s.channels[c]) > 0
    case Stop => !s.stopped
  }

  function Closed(ch: Channel): Channel { ch.(inMap := false, open := false, closes := ch.closes + 1) }

  function Delivered(ch: Channel, m: Message): Channel {
    if !ch.inMap then ch
    else if Buffered(ch) < SEND_BUFFER then ch.(sent := ch.sent + [m])
    else Closed(ch)
  }

  /** Some registered client's channel is closed: sending to it or closing it would panic. */
  predicate Dangling(s: State) { exists c | c in s.channels :: s.channels[c].inMap && !s.channels[c].open }

  function Apply(s: State, e: Event): State
    requires Enabled(s, e)
  {
    match e
    case Register(c) => s.(channels := s.channels[c := Channel(true, true, 0, |s.log|, [], 0)])
    case Unregister(c) =>
      if s.channels[c].inMap
      then s.(channels := s.channels[c := Closed(s.channels[c])], panicked := s.panicked || !s.channels[c].open) else s
    case Broadcast(m) =>
      s.(channels := map c | c in s.channels ::
      Delivered(s.channels[c], m), log := s.log + [m], panicked := s.panicked || Dangling(s))
    case Receive(c) => s.(channels := s.channels[c := s.channels[c].(taken := s.channels[c].taken + 1)])
    case Stop =>
      s.(channels := map c | c in s.channels :: if s.channels[c].inMap then Closed(s.channels[c]) else s.channels[c],
         stopped := true, panicked := s.panicked || Dangling(s))
  }

  ghost predicate IsRun(ss: seq<State>, es: seq<Event>) {
    |ss| == |es| + 1 && ss[0] == Init()
    && forall i {:trigger es[i]} | 0 <= i < |es| :: Enabled(ss[i], es[i]) && ss[i + 1] == Apply(ss[i], es[i])
  }

  ghost predicate Segment(log: seq<Message>, from: nat, part: seq<Message>) {
    from + |part| <= |log| && forall k | 0 <= k < |part| :: part[k] == log[from + k]
  }

  /** In the map exactly while open; closed at most once; holding a contiguous segment of the
      broadcast order from registration on, up to now while registered. */
  ghost predicate ChannelInv(s: State, ch: Channel) {
    && ch.inMap == ch.open && ch.closes == (if ch.open then 0 else 1)
    && Segment(s.log, ch.from, ch.sent)
    && (ch.inMap ==> ch.from + |ch.sent| == |s.log|)
    && ch.taken <= |ch.sent| && Buffered(ch) <= SEND_BUFFER
  }

  ghost predicate Inv(s: State) {
    !s.panicked && (s.stopped ==> forall c | c in s.channels :: !s.channels[c].inMap)
    && forall c | c in s.channels :: ChannelInv(s, s.channels[c])
  }

  lemma DeliveredKeepsInv(s: State, t: State, ch: Channel, m: Message)
    requires ChannelInv(s, ch) && t.log == s.log + [m]
    ensures ChannelInv(t, Delivered(ch, m))
  {
  }

  lemma StepKeepsChannel(s: State, e: Event, c: ClientId)
    requires Enabled(s, e) && c in Apply(s, e).channels && (c in s.channels ==> ChannelInv(s, s.channels[c]))
    ensures ChannelInv(Apply(s, e), Apply(s, e).channels[c])
  {
    if e.Broadcast? { DeliveredKeepsInv(s, Apply(s, e), s.channels[c], e.m); }
  }

  lemma StepKeepsInv(s: State, e: Event)
    requires Inv(s) && Enabled(s, e)
    ensures Inv(Apply(s, e))
  {
    var t := Apply(s, e);
    forall c | c in t.channels ensures ChannelInv(t, t.channels[c]) { StepKeepsChannel(s, e, c); }
    forall c | c in s.channels ensures s.channels[c].inMap ==> s.channels[c].open {
      assert ChannelInv(s, s.channels[c]);
    }
  }

  lemma {:induction false} RunKeepsInv(ss: seq<State>, es: seq<Event>, i: nat)
    requires IsRun(ss, es) && i < |ss|
    ensures Inv(ss[i])
  {
    if i > 0 {
      RunKeepsInv(ss, es, i - 1);
      assert ss[i] == Apply(ss[i - 1], es[i - 1]);
      StepKeepsInv(ss[i - 1], es[i - 1]);
    }
  }

  /** In every run a client is in the map exactly while its channel is open, no channel is closed
      twice or sent to after closing, and what was put on it is a gapless piece of the broadcast. */
  lemma DeliversGaplessly(ss: seq<State>, es: seq<Event>, i: nat, c: ClientId)
    requires IsRun(ss, es) && i < |ss| && c in ss[i].channels
    ensures !ss[i].panicked && ss[i].channels[c].inMap == ss[i].channels[c].open && ss[i].channels[c].closes <= 1
    ensures var ch := ss[i].channels[c];
      && ch.from + |ch.sent| <= |ss[i].log| && ch.sent == ss[i].log[ch.from..ch.from + |ch.sent|]
      && (ch.open ==> ch.sent == ss[i].log[ch.from..])
  {
    RunKeepsInv(ss, es, i);
    assert ChannelInv(ss[i], ss[i].channels[c]);
  }

  /** A closed channel never changes again, except that what it holds is still received. */
  lemma {:induction false} ClosedStaysClosed(ss: seq<State>, es: seq<Event>, i: nat, j: nat, c: ClientId)
    requires IsRun(ss, es) && i <= j < |ss| && c in ss[i].channels && !ss[i].channels[c].open
    ensures c in ss[j].channels && ss[j].channels[c] == ss[i].channels[c].(taken := ss[j].channels[c].taken)
  {
    if i < j {
      ClosedStaysClosed(ss, es, i, j - 1, c);
      RunKeepsInv(ss, es, j - 1);
      assert ss[j] == Apply(ss[j - 1], es[j - 1]);
      assert ChannelInv(ss[j - 1], ss[j - 1].channels[c]);
    }
  }

  // ----- the write pump -----

  function Subscribed(topics: set<string>, ms: seq<Message>): seq<Message> {
    if ms == [] then []
    else Subscribed(topics, ms[..|ms| - 1]) + (if IsSubscribed(topics, ms[|ms| - 1]) then [ms[|ms| - 1]] else [])
  }

  lemma SubscribedSnoc(topics: set<string>, ms: seq<Message>, n: nat)
    requires n < |ms|
    ensures Subscribed(topics, ms[..n + 1])
      == Subscribed(topics, ms[..n]) + (if IsSubscribed(topics, ms[n]) then [ms[n]] else [])
  {
    assert ms[..n + 1][..n] == ms[..n];
  }

  function Bodies(ms: seq<Message>): seq<string> {
    seq(|ms|, i requires 0 <= i < |ms| => ms[i].body)
  }

  /** What the receiver of one frame sees: its messages, separated by newlines. */
  function Payload(ms: seq<Message>): string { Text.Join(Bodies(ms), '\n') }

  /** How the peer and the scheduler behave while the pump runs, by position in the channel: how many
      messages are pending when a frame has been opened, whether opening or closing it fails, and whether
      a ping before it does. */
  datatype Peer = Peer(pending: nat -> nat, openFails: nat -> bool, closeFails: nat -> bool, pingFails: nat -> bool)

  lemma {:induction false} JoinSnoc(parts: seq<string>, last: string, sep: char)
    requires parts != []
    ensures Text.Join(parts + [last], sep) == Text.Join(parts, sep) + [sep] + last
  {
    if |parts| == 1 {
      assert (parts + [last])[1..] == [last];
    } else {
      JoinSnoc(parts[1..], last, sep);
      assert (parts + [last])[1..] == parts[1..] + [last];
    }
  }

  lemma PayloadSnoc(ms: seq<Message>, m: Message)
    requires ms != []
    ensures Payload(ms + [m]) == Payload(ms) + "\n" + m.body
  {
    assert Bodies(ms + [m]) == Bodies(ms) + [m.body];
    JoinSnoc(Bodies(ms), m.body, '\n');
  }

  /** Fills the frame opened for send[k] with the n messages pending behind it. */
  method FillFrame(topics: set<string>, send: seq<Message>, k: nat, n: nat)
    returns (payload: string, ghost frame: seq<Message>)
    requires k + n < |send| && IsSubscribed(topics, send[k])
    ensures frame != [] && payload == Payload(frame)
    ensures Subscribed(topics, send[..k]) + frame == Subscribed(topics, send[..k + 1 + n])
  {
    payload, frame := send[k].body, [send[k]];
    SubscribedSnoc(topics, send, k);
    assert Bodies(frame) == [send[k].body];
    for i := 0 to n
      invariant frame != [] && payload == Payload(frame)
      invariant Subscribed(topics, send[..k]) + frame == Subscribed(topics, send[..k + 1 + i])
    {
      var pending := send[k + 1 + i];
      SubscribedSnoc(topics, send, k + 1 + i);
      if IsSubscribed(topics, pending) {
        PayloadSnoc(frame, pending);
        payload := payload + "\n" + pending.body;
        frame := frame + [pending];
      }
    }
  }

  ghost predicate FramesCarry(topics: set<string>, ms: seq<Message>, frames: seq<seq<Message>>, payloads: seq<string>) {
    && Flatten(frames) == Subscribed(topics, ms)
    && |payloads| == |frames| && forall i | 0 <= i < |frames| :: frames[i] != [] && payloads[i] == Payload(frames[i])
  }

  /** The pump over everything its channel will ever hold. The frames it completes hold the subscribed
      messages of a prefix, in order; of the whole, unless the connection failed. */
  method WritePump(topics: set<string>, send: seq<Message>, peer: Peer)
    returns (payloads: seq<string>, ghost frames: seq<seq<Message>>, ghost reached: nat, failed: bool)
    ensures reached <= |send| && FramesCarry(topics, send[..reached], frames, payloads)
    ensures !failed ==> reached == |send|
    ensures failed ==> exists i :: peer.openFails(i) || peer.closeFails(i) || peer.pingFails(i)
  {
    var k := 0;
    payloads, frames, reached, failed := [], [], 0, false;
    while k < |send|
      invariant k <= |send| && reached == k && FramesCarry(topics, send[..k], frames, payloads)
    {
      if peer.pingFails(k) { failed := true; return; }
      if !IsSubscribed(topics, send[k]) {
        SubscribedSnoc(topics, send, k);
        k, reached := k + 1, k + 1;
        continue;
      }
      if peer.openFails(k) { failed := true; return; }
      var n := peer.pending(k);
      if k + n >= |send| { n := |send| - k - 1; }
      var payload, frame := FillFrame(topics, send, k, n);
      if peer.closeFails(k) { failed := true; return; }
      FlattenSnoc(frames, frame);
      payloads, frames := payloads + [payload], frames + [frame];
      k, reached := k + 1 + n, k + 1 + n;
    }
    assert send[..k] == send;
  }

  // ----- what the receiver sees -----

  function Lines(payloads: seq<string>): seq<string> {
    if payloads == [] then [] else Lines(payloads[..|payloads| - 1]) + Text.Split(payloads[|payloads| - 1], '\n')
  }

  predicate NoNewlines(ms: seq<Message>) { forall i | 0 <= i < |ms| :: '\n' !in ms[i].body }

  /** Splitting every frame at its newlines gives the messages back, however they were batched. */
  lemma {:induction false} FramesSplit(frames: seq<seq<Message>>, payloads: seq<string>)
    requires |payloads| == |frames| && NoNewlines(Flatten(frames))
    requires forall i | 0 <= i < |frames| :: frames[i] != [] && payloads[i] == Payload(frames[i])
    ensures Lines(payloads) == Bodies(Flatten(frames))
  {
    if frames != [] {
      var front, last := frames[..|frames| - 1], frames[|frames| - 1];
      assert Flatten(frames) == Flatten(front) + last;
      forall i | 0 <= i < |Flatten(front)| ensures '\n' !in Flatten(front)[i].body {
        assert Flatten(frames)[i] == Flatten(front)[i];
      }
      forall i | 0 <= i < |last| ensures '\n' !in last[i].body {
        assert Flatten(frames)[|Flatten(front)| + i] == last[i];
      }
      FramesSplit(front, payloads[..|payloads| - 1]);
      Text.SplitJoin(Bodies(last), '\n');
      assert Bodies(Flatten(frames)) == Bodies(Flatten(front)) + Bodies(last);
    }
  }

  lemma {:induction false} SubscribedPart(topics: set<string>, ms: seq<Message>)
    ensures |Subscribed(topics, ms)| <= |ms| && forall i | 0 <= i < |Subscribed(topics, ms)| ::
      Subscribed(topics, ms)[i] in ms
  {
    if ms != [] { SubscribedPart(topics, ms[..|ms| - 1]); }
  }

  /** Hub and pump together: the lines a client receives are the subscribed messages, in broadcast
      order and without gaps, of what was broadcast from its registration up to some point. */
  lemma ReceivedLines(ss: seq<State>, es: seq<Event>, i: nat, c: ClientId, topics: set<string>, reached: nat,
                      frames: seq<seq<Message>>, payloads: seq<string>)
    requires IsRun(ss, es) && i < |ss| && c in ss[i].channels && reached <= |ss[i].channels[c].sent|
    requires FramesCarry(topics, ss[i].channels[c].sent[..reached], frames, payloads) && NoNewlines(ss[i].log)
    ensures var from := ss[i].channels[c].from;
      from + reached <= |ss[i].log| && Lines(payloads) == Bodies(Subscribed(topics, ss[i].log[from..from + reached]))
  {
    DeliversGaplessly(ss, es, i, c);
    var ch := ss[i].channels[c];
    var part := ch.sent[..reached];
    assert part == ss[i].log[ch.from..ch.from + reached];
    SubscribedPart(topics, part);
    forall k | 0 <= k < |Flatten(frames)| ensures '\n' !in Flatten(frames)[k].body {
      var j :| 0 <= j < |part| && part[j] == Flatten(frames)[k];
      assert ss[i].log[ch.from + j] == part[j];
    }
    FramesSplit(frames, payloads);
  }

  // ----- in plain terms -----

  /** Without subscriptions a client gets every message, with some those of its topics and those whose topic
      cannot be read; the rest it does not get. */
  lemma SubscribedExactly(topics: set<string>, ms: seq<Message>, m: Message)
    ensures Subscribed(topics, []) == []
    ensures topics == {} ==> Subscribed(topics, ms + [m]) == Subscribed(topics, ms) + [m]
    ensures m.topic == None ==> Subscribed(topics, ms + [m]) == Subscribed(topics, ms) + [m]
    ensures m.topic.Some? && m.topic.value in topics ==> Subscribed(topics, ms + [m]) == Subscribed(topics, ms) + [m]
    ensures topics != {} && m.topic.Some? && m.topic.value !in topics ==>
      Subscribed(topics, ms + [m]) == Subscribed(topics, ms)
  {
    assert (ms + [m])[..|ms|] == ms;
  }

  /** A registered client with room for it gets every message that is broadcast. */
  lemma GetsEveryMessage(ss: seq<State>, es: seq<Event>, i: nat, c: ClientId)
    requires IsRun(ss, es) && i < |es| && es[i].Broadcast? && c in ss[i].channels && ss[i].channels[c].inMap
    ensures c in ss[i + 1].channels
    ensures |ss[i].channels[c].sent| - ss[i].channels[c].taken < 256 ==>
      ss[i + 1].channels[c].open && ss[i + 1].channels[c].sent == ss[i].channels[c].sent + [es[i].m]
    ensures |ss[i].channels[c].sent| - ss[i].channels[c].taken >= 256 ==>
      !ss[i + 1].channels[c].open && ss[i + 1].channels[c].sent == ss[i].channels[c].sent
  {
    RunKeepsInv(ss, es, i);
    assert ChannelInv(ss[i], ss[i].channels[c]);
    assert ss[i + 1] == Apply(ss[i], es[i]);
  }

  /** A channel is closed only when its client unregisters, when the hub stops, or when its buffer is full. */
  lemma ClosedForAReason(ss: seq<State>, es: seq<Event>, i: nat, c: ClientId)
    requires IsRun(ss, es) && i < |es| && c in ss[i].channels && ss[i].channels[c].open && c in ss[i + 1].channels
    requires !ss[i + 1].channels[c].open
    ensures es[i].Stop? || (es[i].Unregister? && es[i].c == c)
      || (es[i].Broadcast? && |ss[i].channels[c].sent| - ss[i].channels[c].taken >= 256)
  {
    assert ss[i + 1] == Apply(ss[i], es[i]);
  }
}
