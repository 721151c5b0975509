/** The theorems about whole runs of the two endpoints. */
module Protocol {
  import opened RequestIds
  import opened SessionTypes
  import opened LocalTracks
  import opened SessionModel
  import opened Network
  import opened CreditMoves
  import opened CreditSafety
  import opened Answers

  // ----- Invariants of every run, whatever limits the two sides start with -----

  ghost predicate EndpointOk(s: SessionState, peer: SessionState, p: Perspective) {
    && s.perspective == p && s.ids.id % 2 == (if p.Client? then 0 else 1)
    && Greets(s) && IdsUnique(s) && Serving(s, peer.sent)
  }

  ghost predicate Sound(n: Net) {
    EndpointOk(n.client, n.server, Client) && EndpointOk(n.server, n.client, Server)
  }

  lemma MoverOk(s: SessionState, peer: SessionState, p: Perspective, q: Perspective, step: Step)
    requires EndpointOk(s, peer, p) && EndpointOk(peer, s, q) && p != q
    ensures EndpointOk(StepAt(s, peer.sent, step), peer, p)
  {
    var t := StepAt(s, peer.sent, step);
    var m := StepMove(s, peer.sent, step);
    MoveGreets(s, peer, m, t);
    MoveUnique(s, peer.sent, m, t);
    StepServing(s, peer, step);
  }

  lemma MoveAppends(s: SessionState, inbox: seq<Msg>, m: Move, t: SessionState)
    requires Moves(s, inbox, m, t)
    ensures |s.sent| <= |t.sent| && t.sent == s.sent + t.sent[|s.sent|..]
  {}

  lemma WaiterOk(s: SessionState, peer: SessionState, q: Perspective, step: Step)
    requires (!s.ready ==> Fresh(s)) && EndpointOk(peer, s, q)
    ensures EndpointOk(peer, StepAt(s, peer.sent, step), q)
  {
    var t := StepAt(s, peer.sent, step);
    var m := StepMove(s, peer.sent, step);
    MoveAppends(s, peer.sent, m, t);
    MoreInbox(peer, s.sent, t.sent[|s.sent|..]);
  }

  lemma StepEndpoint(s: SessionState, peer: SessionState, p: Perspective, q: Perspective, step: Step)
    requires EndpointOk(s, peer, p) && EndpointOk(peer, s, q) && p != q
    ensures var t := StepAt(s, peer.sent, step); EndpointOk(t, peer, p) && EndpointOk(peer, t, q)
  {
    MoverOk(s, peer, p, q, step);
    WaiterOk(s, peer, q, step);
  }

  lemma ApplySound(n: Net, e: Event)
    requires Sound(n)
    ensures Sound(Apply(n, e))
  {
    if e.at.Client? {
      StepEndpoint(n.client, n.server, Client, Server, e.step);
    } else {
      StepEndpoint(n.server, n.client, Server, Client, e.step);
    }
  }

  lemma {:induction false} RunSound(n: Net, events: seq<Event>)
    requires Sound(n)
    ensures Sound(Run(n, events))
    decreases |events|
  {
    if events != [] {
      ApplySound(n, events[0]);
      RunSound(Apply(n, events[0]), events[1..]);
    }
  }

  // ----- Credit safety -----

  /** Credit flows safely in both directions and no conforming-peer fault has occurred. */
  ghost predicate Safe(n: Net) {
    && Grants(n.client, n.server) && Grants(n.server, n.client)
    && n.client.faults == {} && n.server.faults == {}
  }

  lemma NoFault(s: SessionState, peer: SessionState, p: Perspective, q: Perspective)
    requires EndpointOk(s, peer, p) && EndpointOk(peer, s, q) && p != q
    requires Grants(s, peer) && Grants(peer, s) && s.read < |peer.sent|
    ensures FaultsOf(s, peer.sent[s.read]) == {}
  {
    var m := peer.sent[s.read];
    if m.Request? {
      NextIsNew(s, peer);
    }
  }

  lemma StepSafe(s: SessionState, peer: SessionState, p: Perspective, q: Perspective, step: Step)
    requires EndpointOk(s, peer, p) && EndpointOk(peer, s, q) && p != q
    requires Grants(s, peer) && Grants(peer, s) && s.faults == {}
    requires p.Server? ==> SERVER_SETUP_MAX - 1 <= s.initialMax
    ensures var t := StepAt(s, peer.sent, step);
      Grants(t, peer) && Grants(peer, t) && t.faults == {} && t.initialMax == s.initialMax
  {
    var t := StepAt(s, peer.sent, step);
    var m := StepMove(s, peer.sent, step);
    GrantsWhenSenderMoves(s, peer, m, t);
    GrantsWhenReceiverMoves(peer, s, m, t);
    if s.read < |peer.sent| {
      NoFault(s, peer, p, q);
    }
  }

  lemma {:induction false} RunSafe(n: Net, events: seq<Event>)
    requires Sound(n) && Safe(n) && SERVER_SETUP_MAX - 1 <= n.server.initialMax
    ensures Safe(Run(n, events))
    decreases |events|
  {
    if events != [] {
      var e := events[0];
      ApplySound(n, e);
      if e.at.Client? {
        StepSafe(n.client, n.server, Client, Server, e.step);
      } else {
        StepSafe(n.server, n.client, Server, Client, e.step);
      }
      RunSafe(Apply(n, e), events[1..]);
    }
  }

  lemma InitSound(clientMax: nat, serverMax: nat)
    ensures Sound(Init(clientMax, serverMax))
    ensures Grants(Init(clientMax, serverMax).client, Init(clientMax, serverMax).server)
    ensures Grants(Init(clientMax, serverMax).server, Init(clientMax, serverMax).client)
  {}

  ghost predicate FaultFree(n: Net) {
    n.client.faults == {} && n.server.faults == {}
  }

  // ----- A server limit below 99 is not safe -----

  /** `k` IDs taken in a row at the client. */
  lemma {:induction false} TakeMany(n: Net, k: nat) returns (events: seq<Event>)
    requires n.client.ready && n.client.ids.interval == 2
    requires k > 0 ==> n.client.ids.id + 2 * (k - 1) < n.client.ids.max
    ensures var m := Run(n, events);
      && m.server == n.server
      && m.client == n.client.(ids := n.client.ids.(id := n.client.ids.id + 2 * k), unsent := m.client.unsent)
      && (k > 0 ==> n.client.ids.id + 2 * (k - 1) in m.client.unsent)
      && (forall id :: id in m.client.unsent ==> id in n.client.unsent || m.client.unsent[id].Subscribe?)
  {
    if k == 0 {
      events := [];
    } else {
      var init := TakeMany(n, k - 1);
      var last := Event(Client, Take(Subscribe));
      RunConcat(n, init, [last]);
      assert Run(Run(n, init), [last]) == Apply(Run(n, init), last);
      events := init + [last];
    }
  }

  const QUIET_CHOICE := Choice([], [], true)

  /** The run up to the end of the handshake. */
  function Handshake(): seq<Event> {
    [Event(Server, Deliver(QUIET_CHOICE)), Event(Client, Deliver(QUIET_CHOICE))]
  }

  lemma HandshakeRun(clientMax: nat, serverMax: nat)
    ensures var n := Run(Init(clientMax, serverMax), Handshake());
      && n.client == Start(Client, clientMax).(ready := true, read := 1, ids := Generator(0, SERVER_SETUP_MAX, 2))
      && n.server == Start(Server, serverMax).(ready := true, read := 1, ids := Generator(1, clientMax, 2),
                                               sent := [ServerSetup(SERVER_SETUP_MAX)])
  {
    RunTwo(Init(clientMax, serverMax), Handshake()[0], Handshake()[1]);
  }

  /** The client sends one ID at or above the server's limit. */
  lemma RefusedAbove(n: Net, id: nat)
    requires n.client.ready && n.server.ready && !n.server.failed && n.server.read == |n.client.sent|
    requires id in n.client.unsent && n.client.unsent[id].Subscribe? && n.server.localMax <= id
    ensures var rest := [Event(Client, Send(id, true)), Event(Server, Deliver(QUIET_CHOICE))];
      MaxViolated in Run(n, rest).server.faults
  {
    var n1 := Apply(n, Event(Client, Send(id, true)));
    assert n1.client.sent[n.server.read] == Request(Subscribe, id, true);
    RunTwo(n, Event(Client, Send(id, true)), Event(Server, Deliver(QUIET_CHOICE)));
  }

  lemma LowLimitRefuses(clientMax: nat, serverMax: nat) returns (events: seq<Event>)
    requires serverMax < SERVER_SETUP_MAX - 1
    ensures MaxViolated in Run(Init(clientMax, serverMax), events).server.faults
  {
    HandshakeRun(clientMax, serverMax);
    var n := Run(Init(clientMax, serverMax), Handshake());
    var id := serverMax + serverMax % 2;
    var takes := TakeMany(n, id / 2 + 1);
    RefusedAbove(Run(n, takes), id);
    var rest := [Event(Client, Send(id, true)), Event(Server, Deliver(QUIET_CHOICE))];
    RunConcat(n, takes, rest);
    RunConcat(Init(clientMax, serverMax), Handshake(), takes + rest);
    events := Handshake() + (takes + rest);
  }

  // ----- Main results -----

  /** No conforming-peer fault (an ID refused as above the limit, a duplicate ID, a limit that
      decreases, a message before the setup) occurs in any run exactly when the server's own limit
      is at least 99. */
  lemma NoFaultsIff(clientMax: nat, serverMax: nat)
    ensures (forall events :: FaultFree(Run(Init(clientMax, serverMax), events))) <==> SERVER_SETUP_MAX - 1 <= serverMax
  {
    if SERVER_SETUP_MAX - 1 <= serverMax {
      InitSound(clientMax, serverMax);
      forall events ensures FaultFree(Run(Init(clientMax, serverMax), events)) {
        RunSafe(Init(clientMax, serverMax), events);
      }
    } else {
      var events := LowLimitRefuses(clientMax, serverMax);
      assert !FaultFree(Run(Init(clientMax, serverMax), events));
    }
  }

  /** Sender's limit <= each limit in flight, in sending order <= receiver's limit. */
  ghost predicate CreditChain(s: SessionState, r: SessionState) {
    && (forall id :: id in s.unsent ==> id < s.ids.max)
    && s.ids.max <= r.localMax
    && (forall i :: s.read <= i < |r.sent| && IsGrant(r.sent[i]) ==> s.ids.max <= r.sent[i].max <= r.localMax)
    && (forall i, j :: s.read <= i < j < |r.sent| && IsGrant(r.sent[i]) && IsGrant(r.sent[j])
          ==> r.sent[i].max <= r.sent[j].max)
  }

  /** The server advertising what it enforces, credit is safe in both directions in every run. */
  lemma CreditSafe(clientMax: nat, serverMax: nat, events: seq<Event>)
    requires SERVER_SETUP_MAX <= serverMax
    ensures var n := Run(Init(clientMax, serverMax), events);
      CreditChain(n.client, n.server) && CreditChain(n.server, n.client) && FaultFree(n)
  {
    InitSound(clientMax, serverMax);
    RunSafe(Init(clientMax, serverMax), events);
    RunSound(Init(clientMax, serverMax), events);
    LimitsGrow(Init(clientMax, serverMax), events);
  }

  lemma StepGrows(s: SessionState, peer: SessionState, step: Step)
    requires !s.ready ==> Fresh(s)
    ensures s.localMax <= StepAt(s, peer.sent, step).localMax
  {
    var m := StepMove(s, peer.sent, step);
  }

  lemma {:induction false} LimitsGrow(n: Net, events: seq<Event>)
    requires Sound(n)
    ensures n.server.localMax <= Run(n, events).server.localMax
    decreases |events|
  {
    if events != [] {
      ApplySound(n, events[0]);
      if events[0].at.Server? {
        StepGrows(n.server, n.client, events[0].step);
      }
      LimitsGrow(Apply(n, events[0]), events[1..]);
    }
  }

  /** Request IDs in use at one side of a session. */
  ghost predicate Uses(s: SessionState, id: nat) {
    id in s.unsent || exists i :: 0 <= i < |s.sent| && s.sent[i].Request? && s.sent[i].id == id
  }

  /** In every run no side writes two requests with one ID, and the two sides share none. */
  lemma RequestIdsUnique(clientMax: nat, serverMax: nat, events: seq<Event>)
    ensures var n := Run(Init(clientMax, serverMax), events);
      && IdsUnique(n.client) && IdsUnique(n.server)
      && forall id :: !(Uses(n.client, id) && Uses(n.server, id))
  {
    InitSound(clientMax, serverMax);
    RunSound(Init(clientMax, serverMax), events);
  }

  /** Each incoming request gets at most one OK or ERROR and at most one SUBSCRIBE_DONE, and only if
      the peer did send it; no request is left pending between messages. */
  ghost predicate AnsweredOnce(s: SessionState, peer: SessionState) {
    && s.tracks.pending == {}
    && (forall i, j :: 0 <= i < j < |s.sent| && IsAnswer(s.sent[i]) && IsAnswer(s.sent[j]) ==>
          s.sent[i].id != s.sent[j].id)
    && (forall i :: 0 <= i < |s.sent| && IsAnswer(s.sent[i]) ==> Arrived(peer.sent, s.read, s.sent[i].id))
    && (forall i, j :: 0 <= i < j < |s.sent| && s.sent[i].SubscribeDone? && s.sent[j].SubscribeDone?
          ==> s.sent[i].id != s.sent[j].id)
    && (forall i :: 0 <= i < |s.sent| && s.sent[i].SubscribeDone?
          ==> Arrived(peer.sent, s.read, s.sent[i].id) && Closed(s.tracks, s.sent[i].id, s.sent[i].streams))
  }

  lemma OneAnswerPerRequest(clientMax: nat, serverMax: nat, events: seq<Event>)
    ensures var n := Run(Init(clientMax, serverMax), events);
      AnsweredOnce(n.client, n.server) && AnsweredOnce(n.server, n.client)
  {
    InitSound(clientMax, serverMax);
    RunSound(Init(clientMax, serverMax), events);
  }

  /** Once a track is cancelled, by SUBSCRIBE_DONE or by the peer, no later event of the run opens a
      stream for it or changes the recorded cause. */
  lemma {:induction false} CancelledForGood(n: Net, events: seq<Event>)
    requires Sound(n)
    ensures Persists(n.client.tracks, Run(n, events).client.tracks)
    ensures Persists(n.server.tracks, Run(n, events).server.tracks)
    decreases |events|
  {
    if events != [] {
      var e := events[0];
      ApplySound(n, e);
      if e.at.Client? {
        StepPersists(n.client, n.server, e.step);
      } else {
        StepPersists(n.server, n.client, e.step);
      }
      CancelledForGood(Apply(n, e), events[1..]);
    }
  }
}
