/** How much credit there is once everything in flight has arrived: a closed form that depends only
    on the initial limit and the largest track request ID, not on the order of arrival. */
module CreditSupply {
  import opened RequestIds
  import opened SessionTypes
  import opened LocalTracks
  import opened SessionModel
  import opened Network
  import opened CreditMoves
  import opened CreditSafety
  import opened Answers
  import opened Protocol

  // ----- The closed form -----

  /** The least doubling of `initial` whose lower half holds `top`. */
  function Credit(initial: nat, top: int): nat
    decreases 2 * top + 2 - initial
  {
    if initial == 0 || top < initial / 2 then initial else Credit(2 * initial, top)
  }

  function Doubled(initial: nat, times: nat): nat
    decreases times
  {
    if times == 0 then initial else Doubled(2 * initial, times - 1)
  }

  /** What `Credit` is, without saying how it is computed. */
  lemma {:induction false} CreditIsLeast(initial: nat, top: int) returns (k: nat)
    requires initial > 0
    ensures Credit(initial, top) == Doubled(initial, k)
    ensures top < Credit(initial, top) / 2
    ensures forall j: nat :: j < k ==> Doubled(initial, j) / 2 <= top
    decreases 2 * top + 2 - initial
  {
    if top < initial / 2 {
      k := 0;
    } else {
      k := CreditIsLeast(2 * initial, top);
      k := k + 1;
      forall j: nat | j < k ensures Doubled(initial, j) / 2 <= top {
        if j > 0 {
          assert Doubled(initial, j) == Doubled(2 * initial, j - 1);
        }
      }
    }
  }

  /** Credit does not run away: it stays within a small multiple of the largest ID. */
  lemma {:induction false} CreditBounded(initial: nat, top: int)
    requires -1 <= top
    ensures initial <= Credit(initial, top)
    ensures Credit(initial, top) == initial || Credit(initial, top) <= 4 * top + 2
    decreases 2 * top + 2 - initial
  {
    if initial > 0 && top >= initial / 2 {
      CreditBounded(2 * initial, top);
    }
  }

  /** Admitting one more ID keeps the closed form. */
  lemma {:induction false} GrowKeepsCredit(initial: nat, top: int, id: nat)
    requires id < Credit(initial, top)
    ensures Grow(Credit(initial, top), id) == Credit(initial, if id > top then id else top)
    decreases 2 * top + 2 - initial
  {
    if initial > 0 && top >= initial / 2 {
      GrowKeepsCredit(2 * initial, top, id);
    }
  }

  // ----- Read off a message log -----

  /** The largest SUBSCRIBE or FETCH ID among the first `k` messages, or -1. */
  function LargestTrack(log: seq<Msg>, k: nat): (r: int)
    requires k <= |log|
    ensures -1 <= r
  {
    if k == 0 then -1
    else
      var rest := LargestTrack(log, k - 1);
      if IsTrackRequest(log[k - 1]) && log[k - 1].id > rest then log[k - 1].id else rest
  }

  /** The last limit granted among the first `k` messages. */
  function LastGrant(log: seq<Msg>, k: nat): nat
    requires k <= |log|
  {
    if k == 0 then 0 else if IsGrant(log[k - 1]) then log[k - 1].max else LastGrant(log, k - 1)
  }

  lemma {:induction false} PrefixOnly(log: seq<Msg>, more: seq<Msg>, k: nat)
    requires k <= |log|
    ensures LargestTrack(log + more, k) == LargestTrack(log, k)
    ensures LastGrant(log + more, k) == LastGrant(log, k)
  {
    if k > 0 {
      PrefixOnly(log, more, k - 1);
    }
  }

  lemma {:induction false} PlainGrant(log: seq<Msg>, out: seq<Msg>, k: nat)
    requires k <= |out| && forall i :: 0 <= i < |out| ==> !IsGrant(out[i])
    ensures LastGrant(log + out, |log| + k) == LastGrant(log, |log|)
  {
    if k == 0 {
      PrefixOnly(log, out, |log|);
    } else {
      PlainGrant(log, out, k - 1);
    }
  }

  /** The limit `r` has told its peer, once everything it wrote has arrived. */
  function Advertised(r: SessionState): nat {
    if r.sent == [] then 0 else if r.localMax == r.initialMax then OwnSetup(r).max else r.localMax
  }

  /** `s` works under the last limit it read; `r` has granted exactly the closed form. */
  ghost predicate Supplied(s: SessionState, r: SessionState) {
    && s.read <= |r.sent| && r.read <= |s.sent|
    && s.ids.max == LastGrant(r.sent, s.read)
    && LastGrant(r.sent, |r.sent|) == Advertised(r)
    && (!r.failed ==> r.localMax == Credit(r.initialMax, LargestTrack(s.sent, r.read)))
  }

  lemma SenderSupplied(s: SessionState, r: SessionState, m: Move, t: SessionState)
    requires Supplied(s, r) && Moves(s, r.sent, m, t)
    requires Greets(s) && Greets(r) && s.perspective != r.perspective
    requires t.faults == {}
    ensures Supplied(t, r)
  {
    var out := t.sent[|s.sent|..];
    assert t.sent == s.sent + out;
    PrefixOnly(s.sent, out, r.read);
  }

  lemma AdmitSupplied(s: SessionState, r: SessionState, m: Move, u: SessionState)
    requires Supplied(s, r) && Moves(r, s.sent, m, u) && m.Admit?
    requires Greets(r) && r.initialMax <= r.localMax && !r.failed
    ensures u.localMax == Credit(u.initialMax, LargestTrack(s.sent, u.read))
    ensures LastGrant(u.sent, |u.sent|) == Advertised(u)
  {
    var grow := GrowMessages(r.localMax, m.id);
    GrowKeepsCredit(r.initialMax, LargestTrack(s.sent, r.read), m.id);
    PlainGrant(r.sent + grow, m.out, |m.out|);
    assert |u.sent| == |r.sent + grow| + |m.out|;
    if grow == [] {
      assert r.sent + grow == r.sent;
    } else {
      assert (r.sent + grow)[|r.sent|] == MaxRequestId(2 * r.localMax);
    }
  }

  /** What is read without being admitted does not raise the largest track ID. */
  lemma TopKept(s: SessionState, r: SessionState, m: Move, u: SessionState)
    requires r.read <= |s.sent| && Moves(r, s.sent, m, u) && !m.Admit? && !m.Greet?
    requires Greets(r) && u.faults == {} && !u.failed
    ensures u.read <= |s.sent| && LargestTrack(s.sent, u.read) == LargestTrack(s.sent, r.read)
  {
    if u.read > r.read {
      assert !IsTrackRequest(s.sent[r.read]);
    }
  }

  lemma GrantKept(r: SessionState, inbox: seq<Msg>, m: Move, u: SessionState)
    requires Moves(r, inbox, m, u) && !m.Admit? && !m.Greet?
    ensures LastGrant(u.sent, |u.sent|) == LastGrant(r.sent, |r.sent|)
  {
    var out := u.sent[|r.sent|..];
    assert u.sent == r.sent + out;
    PlainGrant(r.sent, out, |out|);
  }

  lemma TalkSupplied(s: SessionState, r: SessionState, m: Move, u: SessionState)
    requires Supplied(s, r) && Moves(r, s.sent, m, u) && !m.Admit? && !m.Greet?
    requires Greets(r) && u.faults == {}
    ensures !u.failed ==> u.localMax == Credit(u.initialMax, LargestTrack(s.sent, u.read))
    ensures LastGrant(u.sent, |u.sent|) == Advertised(u)
  {
    GrantKept(r, s.sent, m, u);
    if !u.failed {
      TopKept(s, r, m, u);
    }
  }

  lemma GreetSupplied(s: SessionState, r: SessionState, m: Move, u: SessionState)
    requires Supplied(s, r) && Moves(r, s.sent, m, u) && m.Greet?
    requires Greets(r)
    ensures u.localMax == Credit(u.initialMax, LargestTrack(s.sent, u.read))
    ensures LastGrant(u.sent, |u.sent|) == Advertised(u)
  {}

  lemma ReceiverSupplied(s: SessionState, r: SessionState, m: Move, u: SessionState)
    requires Supplied(s, r) && Moves(r, s.sent, m, u)
    requires Greets(r) && u.faults == {} && r.initialMax <= r.localMax
    ensures Supplied(s, u)
  {
    var out := u.sent[|r.sent|..];
    assert u.sent == r.sent + out;
    PrefixOnly(r.sent, out, s.read);
    if m.Admit? {
      AdmitSupplied(s, r, m, u);
    } else if m.Greet? {
      GreetSupplied(s, r, m, u);
    } else {
      TalkSupplied(s, r, m, u);
    }
  }

  // ----- Over whole runs -----

  ghost predicate BothSupplied(n: Net) {
    && Supplied(n.client, n.server) && Supplied(n.server, n.client)
    && n.client.initialMax <= n.client.localMax && n.server.initialMax <= n.server.localMax
  }

  lemma StepSupplied(s: SessionState, peer: SessionState, p: Perspective, q: Perspective, step: Step)
    requires EndpointOk(s, peer, p) && EndpointOk(peer, s, q) && p != q
    requires Supplied(s, peer) && Supplied(peer, s) && s.initialMax <= s.localMax
    requires StepAt(s, peer.sent, step).faults == {}
    ensures var t := StepAt(s, peer.sent, step);
      Supplied(t, peer) && Supplied(peer, t) && t.initialMax <= t.localMax
  {
    var t := StepAt(s, peer.sent, step);
    var m := StepMove(s, peer.sent, step);
    SenderSupplied(s, peer, m, t);
    ReceiverSupplied(peer, s, m, t);
  }

  lemma {:induction false} RunSupplied(n: Net, events: seq<Event>)
    requires Sound(n) && Safe(n) && SERVER_SETUP_MAX - 1 <= n.server.initialMax && BothSupplied(n)
    ensures BothSupplied(Run(n, events))
    decreases |events|
  {
    if events != [] {
      var e := events[0];
      ApplySound(n, e);
      if e.at.Client? {
        StepSafe(n.client, n.server, Client, Server, e.step);
        StepSupplied(n.client, n.server, Client, Server, e.step);
      } else {
        StepSafe(n.server, n.client, Server, Client, e.step);
        StepSupplied(n.server, n.client, Server, Client, e.step);
      }
      RunSupplied(Apply(n, e), events[1..]);
    }
  }

  // ----- Main results -----

  /** Everything written has been read, and neither reader has stopped. */
  ghost predicate Drained(n: Net) {
    && n.client.read == |n.server.sent| && n.server.read == |n.client.sent|
    && !n.client.failed && !n.server.failed
  }

  /** What a sender may use once the network is drained: `advertised` until the first doubling. */
  function Allowance(initial: nat, advertised: nat, top: int): nat {
    if Credit(initial, top) == initial then advertised else Credit(initial, top)
  }

  function Top(s: SessionState): int {
    LargestTrack(s.sent, |s.sent|)
  }

  /** In every drained state of every run, each side's limit is a function of the initial limit and the
      largest SUBSCRIBE or FETCH ID it has sent.  So `next` hands out an ID exactly when the next ID
      is below that. */
  lemma DrainedCredit(clientMax: nat, serverMax: nat, events: seq<Event>)
    requires SERVER_SETUP_MAX - 1 <= serverMax
    requires Drained(Run(Init(clientMax, serverMax), events))
    ensures var n := Run(Init(clientMax, serverMax), events);
      && (Next(n.client.ids).1.Issued? <==>
            n.client.ids.id < Allowance(serverMax, SERVER_SETUP_MAX, Top(n.client)))
      && (Next(n.server.ids).1.Issued? <==>
            n.server.ids.id < Allowance(clientMax, clientMax, Top(n.server)))
  {
    var n0 := Init(clientMax, serverMax);
    InitSound(clientMax, serverMax);
    RunSupplied(n0, events);
    RunSound(n0, events);
    InitialMaxKept(n0, events);
  }

  lemma {:induction false} InitialMaxKept(n: Net, events: seq<Event>)
    requires Sound(n)
    ensures Run(n, events).client.initialMax == n.client.initialMax
    ensures Run(n, events).server.initialMax == n.server.initialMax
    decreases |events|
  {
    if events != [] {
      ApplySound(n, events[0]);
      if events[0].at.Client? {
        var m := StepMove(n.client, n.server.sent, events[0].step);
      } else {
        var m := StepMove(n.server, n.client.sent, events[0].step);
      }
      InitialMaxKept(Apply(n, events[0]), events[1..]);
    }
  }

  /** The last ID this side took was used for a SUBSCRIBE or FETCH it has sent, or it took none. */
  ghost predicate LastWasTrack(s: SessionState) {
    s.ids.id < 2 || Top(s) == s.ids.id - 2
  }

  /** With a server limit of 99 to 197 and a client limit of at least 2, a side whose last request was
      a SUBSCRIBE or FETCH is never blocked once the network is drained. */
  lemma TracksNeverBlock(clientMax: nat, serverMax: nat, events: seq<Event>)
    requires SERVER_SETUP_MAX - 1 <= serverMax < 2 * SERVER_SETUP_MAX - 2 && 2 <= clientMax
    requires Drained(Run(Init(clientMax, serverMax), events))
    ensures var n := Run(Init(clientMax, serverMax), events);
      && (LastWasTrack(n.client) ==> Next(n.client.ids).1.Issued?)
      && (LastWasTrack(n.server) ==> Next(n.server.ids).1.Issued?)
  {
    var n := Run(Init(clientMax, serverMax), events);
    DrainedCredit(clientMax, serverMax, events);
    IdParity(clientMax, serverMax, events);
    if LastWasTrack(n.client) {
      AllowsNext(serverMax, SERVER_SETUP_MAX, Top(n.client), n.client.ids.id);
    }
    if LastWasTrack(n.server) {
      AllowsNext(clientMax, clientMax, Top(n.server), n.server.ids.id);
    }
  }

  lemma IdParity(clientMax: nat, serverMax: nat, events: seq<Event>)
    ensures var n := Run(Init(clientMax, serverMax), events);
      n.client.ids.id % 2 == 0 && n.server.ids.id % 2 == 1
  {
    InitSound(clientMax, serverMax);
    RunSound(Init(clientMax, serverMax), events);
  }

  /** The ID after the largest one admitted is within the allowance. */
  lemma AllowsNext(initial: nat, advertised: nat, top: int, id: nat)
    requires 2 <= initial && 2 <= advertised && -1 <= top && (id < 2 || top == id - 2)
    requires if id % 2 == 1 then initial == advertised else initial < 2 * advertised - 2
    ensures id < Allowance(initial, advertised, top)
  {
    var k := CreditIsLeast(initial, top);
    CreditBounded(initial, top);
  }

  // ----- Sessions that ask for tracks only -----

  /** Side `p` takes IDs for SUBSCRIBE and FETCH only and abandons none; all else is free, at either side. */
  ghost predicate TracksOnly(events: seq<Event>, p: Perspective) {
    forall i :: 0 <= i < |events| && events[i].at == p ==>
      !events[i].step.Abandon? && (events[i].step.Take? ==> IsTrack(events[i].step.kind))
  }

  ghost predicate SentTrack(log: seq<Msg>, id: nat) {
    exists i :: 0 <= i < |log| && IsTrackRequest(log[i]) && log[i].id == id
  }

  /** Every ID taken so far is that of a SUBSCRIBE or FETCH, held or written. */
  ghost predicate AllTracks(s: SessionState) {
    forall id: nat :: id < s.ids.id && id % 2 == s.ids.id % 2 ==>
      (id in s.unsent && IsTrack(s.unsent[id])) || SentTrack(s.sent, id)
  }

  lemma SentTrackStays(log: seq<Msg>, out: seq<Msg>, id: nat)
    requires SentTrack(log, id)
    ensures SentTrack(log + out, id)
  {
    var i :| 0 <= i < |log| && IsTrackRequest(log[i]) && log[i].id == id;
    assert (log + out)[i] == log[i];
  }

  lemma MoveAllTracks(s: SessionState, inbox: seq<Msg>, m: Move, t: SessionState)
    requires AllTracks(s) && Moves(s, inbox, m, t) && IdsUnique(s)
    requires !m.Drop? && (m.Issue? ==> IsTrack(m.kind))
    ensures AllTracks(t)
  {
    MoveAppends(s, inbox, m, t);
    forall id: nat | id < t.ids.id && id % 2 == t.ids.id % 2
      ensures (id in t.unsent && IsTrack(t.unsent[id])) || SentTrack(t.sent, id)
    {
      if id < s.ids.id {
        if SentTrack(s.sent, id) {
          SentTrackStays(s.sent, t.sent[|s.sent|..], id);
        } else if m.Emit? && m.id == id {
          assert t.sent[|s.sent|] == Request(s.unsent[id], id, m.namespaceOk);
        }
      }
    }
  }

  ghost predicate Asking(n: Net, p: Perspective) {
    AllTracks(if p.Client? then n.client else n.server)
  }

  lemma {:induction false} RunAllTracks(n: Net, events: seq<Event>, p: Perspective)
    requires Sound(n) && Asking(n, p) && TracksOnly(events, p)
    ensures Asking(Run(n, events), p)
    decreases |events|
  {
    if events != [] {
      var e := events[0];
      ApplySound(n, e);
      if e.at == p {
        StepAllTracks(n, e);
      }
      RunAllTracks(Apply(n, e), events[1..], p);
    }
  }

  lemma StepAllTracks(n: Net, e: Event)
    requires Sound(n) && Asking(n, e.at) && TracksOnly([e], e.at)
    ensures Asking(Apply(n, e), e.at)
  {
    assert [e][0] == e;
    if e.at.Client? {
      var m := StepMove(n.client, n.server.sent, e.step);
      MoveAllTracks(n.client, n.server.sent, m, StepAt(n.client, n.server.sent, e.step));
    } else {
      var m := StepMove(n.server, n.client.sent, e.step);
      MoveAllTracks(n.server, n.client.sent, m, StepAt(n.server, n.client.sent, e.step));
    }
  }

  lemma {:induction false} TopAtLeast(log: seq<Msg>, k: nat, i: nat)
    requires i < k <= |log| && IsTrackRequest(log[i])
    ensures log[i].id <= LargestTrack(log, k)
  {
    if i < k - 1 {
      TopAtLeast(log, k - 1, i);
    }
  }

  lemma {:induction false} TopIsTaken(s: SessionState, k: nat)
    requires IdsUnique(s) && k <= |s.sent|
    ensures var top := LargestTrack(s.sent, k); top == -1 || Taken(s, top)
  {
    if k > 0 {
      TopIsTaken(s, k - 1);
    }
  }

  lemma LastIsTrack(s: SessionState)
    requires IdsUnique(s) && AllTracks(s) && s.unsent == map[]
    ensures LastWasTrack(s)
  {
    if s.ids.id >= 2 {
      var id := s.ids.id - 2;
      assert SentTrack(s.sent, id);
      var i :| 0 <= i < |s.sent| && IsTrackRequest(s.sent[i]) && s.sent[i].id == id;
      TopAtLeast(s.sent, |s.sent|, i);
      TopIsTaken(s, |s.sent|);
    }
  }

  /** So over whole runs, with those limits: a side that asks for tracks only, and has written every request it took
      an ID for, is never blocked once the network is drained. */
  lemma TrackSessionsNeverBlock(clientMax: nat, serverMax: nat, events: seq<Event>, p: Perspective)
    requires SERVER_SETUP_MAX - 1 <= serverMax < 2 * SERVER_SETUP_MAX - 2 && 2 <= clientMax
    requires TracksOnly(events, p) && Drained(Run(Init(clientMax, serverMax), events))
    ensures var n := Run(Init(clientMax, serverMax), events);
      var s := if p.Client? then n.client else n.server;
      s.unsent == map[] ==> Next(s.ids).1.Issued?
  {
    var n0 := Init(clientMax, serverMax);
    InitSound(clientMax, serverMax);
    RunSound(n0, events);
    RunAllTracks(n0, events, p);
    TracksNeverBlock(clientMax, serverMax, events);
    var n := Run(n0, events);
    var s := if p.Client? then n.client else n.server;
    if s.unsent == map[] {
      LastIsTrack(s);
    }
  }

  // ----- In every state -----

  /** In every state of every run: an ID already admitted lies in the lower half of the limit, and the
      limit has not grown past a small multiple of the largest ID. */
  lemma CreditInEveryState(clientMax: nat, serverMax: nat, events: seq<Event>)
    requires SERVER_SETUP_MAX - 1 <= serverMax
    ensures var n := Run(Init(clientMax, serverMax), events);
      && InProportion(n.client, n.server, serverMax) && InProportion(n.server, n.client, clientMax)
  {
    var n0 := Init(clientMax, serverMax);
    InitSound(clientMax, serverMax);
    RunSupplied(n0, events);
    InitialMaxKept(n0, events);
    var n := Run(n0, events);
    HalfAndBound(serverMax, LargestTrack(n.client.sent, n.server.read));
    HalfAndBound(clientMax, LargestTrack(n.server.sent, n.client.read));
  }

  ghost predicate InProportion(s: SessionState, r: SessionState, initial: nat) {
    r.read <= |s.sent| &&
    (!r.failed && initial > 0 ==>
      var top := LargestTrack(s.sent, r.read);
      top < r.localMax / 2 && (r.localMax <= initial || r.localMax <= 4 * top + 2))
  }

  lemma HalfAndBound(initial: nat, top: int)
    requires -1 <= top
    ensures initial > 0 ==> top < Credit(initial, top) / 2
    ensures Credit(initial, top) <= initial || Credit(initial, top) <= 4 * top + 2
  {
    CreditBounded(initial, top);
    if initial > 0 {
      var k := CreditIsLeast(initial, top);
    }
  }

  // ----- When credit does run dry -----

  lemma {:induction false} TopTaken(s: SessionState, k: nat)
    requires IdsUnique(s) && k <= |s.sent|
    ensures k > 0 ==> LargestTrack(s.sent, k) < s.ids.id
  {
    if k > 1 {
      TopTaken(s, k - 1);
    }
  }

  ghost predicate Idle(n: Net) {
    Drained(n) && n.client.ready && n.server.ready && n.client.unsent == map[]
  }

  function RoundEvents(id: nat, k: Kind): seq<Event> {
    [Event(Client, Take(k)), Event(Client, Send(id, true)),
     Event(Server, Deliver(QUIET_CHOICE)), Event(Client, Deliver(QUIET_CHOICE))]
  }

  /** One request from the client, unanswered by a handler, read to the end: it earns no credit when it
      is an announcement or its ID is in the lower half of the server's limit. */
  lemma Round(n: Net, k: Kind)
    requires Sound(n) && Idle(n) && n.client.ids.id < n.client.ids.max
    requires k.Announce? || (k.Subscribe? && n.client.ids.id < n.server.localMax / 2)
    ensures var m := Run(n, RoundEvents(n.client.ids.id, k));
      && Idle(m) && m.client.ids == n.client.ids.(id := n.client.ids.id + 2)
      && m.server.localMax == n.server.localMax
      && (k.Subscribe? ==> Top(m.client) == n.client.ids.id)
  {
    var id, events := n.client.ids.id, RoundEvents(n.client.ids.id, k);
    RunSound(n, events);
    RoundRequest(n, k);
    var n2 := Apply(Apply(n, events[0]), events[1]);
    NextIsNew(n2.server, n2.client);
    RoundReply(n2, id, k);
    RunFour(n, events[0], events[1], events[2], events[3]);
    if k.Subscribe? {
      RoundTop(n, k);
    }
  }

  lemma RunFour(n: Net, a: Event, b: Event, c: Event, d: Event)
    ensures Run(n, [a, b, c, d]) == Apply(Apply(Apply(Apply(n, a), b), c), d)
  {
    RunTwo(n, a, b);
    RunTwo(Run(n, [a, b]), c, d);
    RunConcat(n, [a, b], [c, d]);
    assert [a, b] + [c, d] == [a, b, c, d];
  }

  /** The first half of a round: the client takes an ID and writes its request. */
  lemma RoundRequest(n: Net, k: Kind)
    requires Sound(n) && Idle(n) && n.client.ids.id < n.client.ids.max
    ensures var id := n.client.ids.id;
      var m := Apply(Apply(n, Event(Client, Take(k))), Event(Client, Send(id, true)));
      && Sound(m) && m.server == n.server && m.client.sent == n.client.sent + [Request(k, id, true)]
      && m.client.ids == n.client.ids.(id := id + 2) && m.client.ready && !m.client.failed
      && m.client.read == n.client.read && m.client.unsent == map[]
  {
    var a, b := Event(Client, Take(k)), Event(Client, Send(n.client.ids.id, true));
    RunTwo(n, a, b);
    RunSound(n, [a, b]);
  }

  lemma RoundTop(n: Net, k: Kind)
    requires Sound(n) && k.Subscribe?
    ensures LargestTrack(n.client.sent + [Request(k, n.client.ids.id, true)], |n.client.sent| + 1) == n.client.ids.id
  {
    PrefixOnly(n.client.sent, [Request(k, n.client.ids.id, true)], |n.client.sent|);
    TopTaken(n.client, |n.client.sent|);
  }

  lemma RoundReply(n: Net, id: nat, k: Kind)
    requires Sound(n) && n.client.ready && n.server.ready && !n.client.failed && !n.server.failed
    requires n.client.read == |n.server.sent| && n.server.read + 1 == |n.client.sent|
    requires n.client.sent[n.server.read] == Request(k, id, true) && id !in n.server.tracks.all
    requires k.Announce? || (k.Subscribe? && id < n.server.localMax / 2)
    ensures var m := Apply(Apply(n, Event(Server, Deliver(QUIET_CHOICE))), Event(Client, Deliver(QUIET_CHOICE)));
      && Drained(m) && m.client.ready && m.server.ready && m.client.ids == n.client.ids
      && m.client.sent == n.client.sent && m.client.unsent == n.client.unsent
      && m.server.localMax == n.server.localMax
  {
    var n1 := Apply(n, Event(Server, Deliver(QUIET_CHOICE)));
    if k.Subscribe? {
      assert n1.server.sent == n.server.sent + [Error(k, id)];
    } else {
      assert n1.server.sent == n.server.sent;
    }
  }

  /** The readers read, and the client alone makes requests, all of one kind; none is abandoned. */
  ghost predicate Requests(events: seq<Event>, k: Kind) {
    forall i :: 0 <= i < |events| ==>
      var e := events[i]; e.step.Deliver? || (e.at.Client? && (e.step == Take(k) || e.step.Send?))
  }

  /** A round after `before`. */
  lemma RoundFrom(clientMax: nat, serverMax: nat, before: seq<Event>, k: Kind) returns (once: seq<Event>)
    requires var n := Run(Init(clientMax, serverMax), before);
      && Idle(n) && n.client.ids.id < n.client.ids.max
      && (k.Announce? || (k.Subscribe? && n.client.ids.id < n.server.localMax / 2))
    ensures Requests(once, k)
    ensures var n, m := Run(Init(clientMax, serverMax), before), Run(Init(clientMax, serverMax), before + once);
      && Idle(m) && m.client.ids == n.client.ids.(id := n.client.ids.id + 2)
      && m.server.localMax == n.server.localMax
      && (k.Subscribe? ==> Top(m.client) == n.client.ids.id)
  {
    var n0 := Init(clientMax, serverMax);
    InitSound(clientMax, serverMax);
    RunSound(n0, before);
    var n := Run(n0, before);
    once := RoundEvents(n.client.ids.id, k);
    Round(n, k);
    RunConcat(n0, before, once);
  }

  /** Rounds after `before` until the client's limit is used up. */
  lemma {:induction false} UseUp(clientMax: nat, serverMax: nat, before: seq<Event>, k: Kind) returns (all: seq<Event>)
    requires Requests(before, k)
    requires var n := Run(Init(clientMax, serverMax), before);
      && Idle(n) && n.client.ids.id < n.client.ids.max == SERVER_SETUP_MAX && n.client.ids.id % 2 == 0
      && (k.Announce? || (k.Subscribe? && SERVER_SETUP_MAX - 2 < n.server.localMax / 2))
    ensures Requests(all, k)
    ensures var m := Run(Init(clientMax, serverMax), all);
      Idle(m) && Next(m.client.ids).1.Blocked? && (k.Subscribe? ==> LastWasTrack(m.client))
    decreases SERVER_SETUP_MAX - Run(Init(clientMax, serverMax), before).client.ids.id
  {
    var once := RoundFrom(clientMax, serverMax, before, k);
    var m := Run(Init(clientMax, serverMax), before + once);
    if m.client.ids.id < m.client.ids.max {
      all := UseUp(clientMax, serverMax, before + once, k);
    } else {
      all := before + once;
    }
  }

  lemma UseUpFromStart(clientMax: nat, serverMax: nat, k: Kind) returns (events: seq<Event>)
    requires k.Announce? || (k.Subscribe? && SERVER_SETUP_MAX - 2 < serverMax / 2)
    ensures Requests(events, k)
    ensures var n := Run(Init(clientMax, serverMax), events);
      Idle(n) && Next(n.client.ids).1.Blocked? && (k.Subscribe? ==> LastWasTrack(n.client))
  {
    HandshakeRun(clientMax, serverMax);
    events := UseUp(clientMax, serverMax, Handshake(), k);
  }

  /** Nothing in flight, every ID taken was sent, and the client's next request would be blocked. */
  ghost predicate Starved(n: Net) {
    Drained(n) && n.client.unsent == map[] && Next(n.client.ids).1.Blocked?
  }

  /** Announcements use up IDs: whatever the limits, some run in which the client sends announcements and nothing
      else leaves it blocked with nothing in flight. */
  lemma AnnouncementsStarve(clientMax: nat, serverMax: nat)
    ensures exists events :: Requests(events, Announce) && Starved(Run(Init(clientMax, serverMax), events))
  {
    var events := UseUpFromStart(clientMax, serverMax, Announce);
    assert Requests(events, Announce) && Starved(Run(Init(clientMax, serverMax), events));
  }

  // ----- Announcements earn nothing -----

  /** The client takes no ID for a SUBSCRIBE or FETCH; all else is free, at either side. */
  ghost predicate NoTracks(events: seq<Event>) {
    forall i :: 0 <= i < |events| && events[i].at.Client? && events[i].step.Take? ==> !IsTrack(events[i].step.kind)
  }

  /** No track request on its way from `s`, and so no credit on its way to it. */
  ghost predicate Unearning(s: SessionState, r: SessionState) {
    && (forall id :: id in s.unsent ==> !IsTrack(s.unsent[id]))
    && (forall i :: 0 <= i < |s.sent| ==> !IsTrackRequest(s.sent[i]))
    && (forall i :: 0 <= i < |r.sent| ==> !r.sent[i].MaxRequestId?)
    && s.ids.max == (if s.ready then SERVER_SETUP_MAX else 0)
    && s.ids.id <= s.ids.max
  }

  lemma SenderUnearning(s: SessionState, r: SessionState, m: Move, t: SessionState)
    requires Unearning(s, r) && Moves(s, r.sent, m, t) && (m.Issue? ==> !IsTrack(m.kind))
    requires Greets(s) && Greets(r) && s.perspective.Client? && r.perspective.Server?
    requires s.ids.interval == 2 && s.ids.id % 2 == 0
    ensures Unearning(t, r)
  {}

  lemma GranterUnearning(s: SessionState, r: SessionState, m: Move, u: SessionState)
    requires Unearning(s, r) && Moves(r, s.sent, m, u)
    ensures Unearning(s, u)
  {}

  lemma {:induction false} RunUnearning(n: Net, events: seq<Event>)
    requires Sound(n) && Unearning(n.client, n.server) && NoTracks(events)
    ensures Unearning(Run(n, events).client, Run(n, events).server)
    decreases |events|
  {
    if events != [] {
      var e := events[0];
      ApplySound(n, e);
      if e.at.Client? {
        var m := StepMove(n.client, n.server.sent, e.step);
        SenderUnearning(n.client, n.server, m, Apply(n, e).client);
      } else {
        var m := StepMove(n.server, n.client.sent, e.step);
        GranterUnearning(n.client, n.server, m, Apply(n, e).server);
      }
      RunUnearning(Apply(n, e), events[1..]);
    }
  }

  /** In every run in which the client makes no SUBSCRIBE or FETCH, whatever the limits and whatever the server does,
      the client gets 50 request IDs and no more: in a drained state it is blocked exactly when it has used them. */
  lemma AnnouncementsEarnNothing(clientMax: nat, serverMax: nat, events: seq<Event>)
    requires NoTracks(events)
    ensures var n := Run(Init(clientMax, serverMax), events);
      && n.client.ids.id <= SERVER_SETUP_MAX
      && (Drained(n) ==> (Next(n.client.ids).1.Blocked? <==> n.client.ids.id == SERVER_SETUP_MAX))
  {
    var n0 := Init(clientMax, serverMax);
    InitSound(clientMax, serverMax);
    RunSound(n0, events);
    RunUnearning(n0, events);
    SetupSent(n0, events);
  }

  /** The client's setup message is written before anything else. */
  lemma {:induction false} SetupSent(n: Net, events: seq<Event>)
    requires Sound(n) && n.client.sent != []
    ensures Run(n, events).client.sent != []
    decreases |events|
  {
    if events != [] {
      ApplySound(n, events[0]);
      if events[0].at.Client? {
        var m := StepMove(n.client, n.server.sent, events[0].step);
      }
      SetupSent(Apply(n, events[0]), events[1..]);
    }
  }

  // ----- Where tracks keep the credit flowing -----

  /** Nothing in flight, and a side whose last request was a SUBSCRIBE or FETCH is not blocked. */
  ghost predicate TracksRefill(n: Net) {
    Drained(n) ==>
      && (LastWasTrack(n.client) ==> Next(n.client.ids).1.Issued?)
      && (LastWasTrack(n.server) ==> Next(n.server.ids).1.Issued?)
  }

  /** The client sends the last of its IDs, 98, in a SUBSCRIBE; both sides then read. */
  function LastRequest(): seq<Event> {
    [Event(Client, Send(SERVER_SETUP_MAX - 2, true)),
     Event(Server, Deliver(QUIET_CHOICE)), Event(Client, Deliver(QUIET_CHOICE))]
  }

  /** A server limit below 99 refuses it, and the refusal earns nothing. */
  lemma LastRefused(n: Net)
    requires n.client.ready && n.server.ready && !n.client.failed && !n.server.failed
    requires |n.client.sent| == 1 && n.client.sent[0].ClientSetup? && n.server.read == 1
    requires n.client.read == |n.server.sent| && n.server.localMax < SERVER_SETUP_MAX - 1
    requires n.client.ids == Generator(SERVER_SETUP_MAX, SERVER_SETUP_MAX, 2)
    requires SERVER_SETUP_MAX - 2 in n.client.unsent && n.client.unsent[SERVER_SETUP_MAX - 2].Subscribe?
    ensures !TracksRefill(Run(n, LastRequest()))
  {
    var id, es := SERVER_SETUP_MAX - 2, LastRequest();
    var n1 := Apply(n, es[0]);
    assert n1.client.sent == [n.client.sent[0], Request(Subscribe, id, true)];
    var n2 := Apply(n1, es[1]);
    assert n2.server.sent == n.server.sent + [Error(Subscribe, id)];
    var n3 := Apply(n2, es[2]);
    RunTwo(n, es[0], es[1]);
    RunConcat(n, [es[0], es[1]], [es[2]]);
    assert es == [es[0], es[1]] + [es[2]];
    assert Run(n2, [es[2]]) == Apply(n2, es[2]);
    assert LargestTrack(n3.client.sent, 1) == -1;
    assert LargestTrack(n3.client.sent, 2) == id;
  }

  lemma LowLimitBlocks(clientMax: nat, serverMax: nat) returns (events: seq<Event>)
    requires serverMax < SERVER_SETUP_MAX - 1
    ensures !TracksRefill(Run(Init(clientMax, serverMax), events))
  {
    HandshakeRun(clientMax, serverMax);
    var n := Run(Init(clientMax, serverMax), Handshake());
    var takes := TakeMany(n, SERVER_SETUP_MAX / 2);
    LastRefused(Run(n, takes));
    RunConcat(n, takes, LastRequest());
    RunConcat(Init(clientMax, serverMax), Handshake(), takes + LastRequest());
    events := Handshake() + (takes + LastRequest());
  }

  /** Tracks alone keep the credit flowing in every run exactly for these initial limits. */
  lemma TracksRefillIff(clientMax: nat, serverMax: nat)
    ensures (forall events :: TracksRefill(Run(Init(clientMax, serverMax), events)))
        <==> 2 <= clientMax && SERVER_SETUP_MAX - 1 <= serverMax < 2 * SERVER_SETUP_MAX - 2
  {
    if clientMax < 2 {
      HandshakeRun(clientMax, serverMax);
      assert !TracksRefill(Run(Init(clientMax, serverMax), Handshake()));
    } else if serverMax < SERVER_SETUP_MAX - 1 {
      var events := LowLimitBlocks(clientMax, serverMax);
      assert !TracksRefill(Run(Init(clientMax, serverMax), events));
    } else if 2 * SERVER_SETUP_MAX - 2 <= serverMax {
      var events := UseUpFromStart(clientMax, serverMax, Subscribe);
      assert !TracksRefill(Run(Init(clientMax, serverMax), events));
    } else {
      forall events ensures TracksRefill(Run(Init(clientMax, serverMax), events)) {
        if Drained(Run(Init(clientMax, serverMax), events)) {
          TracksNeverBlock(clientMax, serverMax, events);
        }
      }
    }
  }
}
