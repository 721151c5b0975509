/** Two sessions joined by two FIFO control channels.  A channel is the part of one endpoint's `sent`
    that the other has not read yet.  A run is any finite sequence of events, so a statement about
    every `Run` is a statement about every interleaving. */
module Network {
  import opened SessionTypes
  import opened LocalTracks
  import opened SessionModel

  datatype Net = Net(client: SessionState, server: SessionState)

  datatype Step =
    | Take(kind: Kind)                         // an application call obtains a request ID
    | Send(id: nat, namespaceOk: bool)         // ... and later writes its request
    | Abandon(id: nat)                         // ... or never does
    | Tell(msg: Msg)                           // UNSUBSCRIBE, FETCH_CANCEL or SUBSCRIBE_UPDATE
    | Late(id: nat, action: Action)            // late use of a response writer
    | Deliver(choice: Choice)                  // the reader handles the next message

  datatype Event = Event(at: Perspective, step: Step)

  /** Application calls are made after the handshake, when Run has returned. */
  function CallAt(s: SessionState, step: Step): SessionState
    requires !step.Deliver?
  {
    match step
    case Take(k) => if s.ready then Allocate(s, k) else s
    case Send(id, namespaceOk) => if s.ready then SendRequest(s, id, namespaceOk) else s
    case Abandon(id) => s.(unsent := s.unsent - {id})
    case Tell(m) =>
      if s.ready && (m.SubscribeUpdate? || m.Unsubscribe? || m.FetchCancel?) then Write(s, [m]) else s
    case Late(id, a) => UseWriter(s, id, a)
  }

  /** The reader handles the next message, unless it has stopped or there is none. */
  function ReadAt(s: SessionState, inbox: seq<Msg>, c: Choice): SessionState {
    if s.failed || s.read >= |inbox| then s else Receive(s.(read := s.read + 1), inbox[s.read], c)
  }

  function StepAt(s: SessionState, inbox: seq<Msg>, step: Step): SessionState {
    if step.Deliver? then ReadAt(s, inbox, step.choice) else CallAt(s, step)
  }

  lemma ReadIs(s: SessionState, inbox: seq<Msg>, c: Choice)
    ensures ReadAt(s, inbox, c) ==
      if s.failed || s.read >= |inbox| then s else Receive(s.(read := s.read + 1), inbox[s.read], c)
  {}

  lemma DeliverIs(s: SessionState, inbox: seq<Msg>, c: Choice)
    ensures StepAt(s, inbox, Deliver(c)) ==
      if s.failed || s.read >= |inbox| then s else Receive(s.(read := s.read + 1), inbox[s.read], c)
  {
    ReadIs(s, inbox, c);
  }

  function Apply(n: Net, e: Event): Net {
    match e.at
    case Client => n.(client := StepAt(n.client, n.server.sent, e.step))
    case Server => n.(server := StepAt(n.server, n.client.sent, e.step))
  }

  function Run(n: Net, events: seq<Event>): Net
    decreases |events|
  {
    if events == [] then n else Run(Apply(n, events[0]), events[1..])
  }

  /** Both endpoints just started; the client has written CLIENT_SETUP. */
  function Init(clientMax: nat, serverMax: nat): Net {
    Net(Start(Client, clientMax), Start(Server, serverMax))
  }

  lemma {:induction false} RunConcat(n: Net, a: seq<Event>, b: seq<Event>)
    ensures Run(n, a + b) == Run(Run(n, a), b)
    decreases |a|
  {
    if a == [] {
      assert a + b == b;
    } else {
      assert (a + b)[1..] == a[1..] + b;
      RunConcat(Apply(n, a[0]), a[1..], b);
    }
  }

  lemma RunTwo(n: Net, a: Event, b: Event)
    ensures Run(n, [a, b]) == Apply(Apply(n, a), b)
  {
    assert [a, b][1..] == [b];
    assert Run(Apply(n, a), [b]) == Run(Apply(Apply(n, a), b), []);
  }
}
