/** What becomes of a SUBSCRIBE or FETCH once it is read: the answer it gets, exactly, for the rest of the run. */
module ExactAnswers {
  import opened RequestIds
  import opened SessionTypes
  import opened LocalTracks
  import opened SessionModel
  import opened Network
  import opened CreditMoves
  import opened CreditSafety
  import opened Answers
  import opened Protocol

  // ----- Answers in a log -----

  /** The OK and ERROR messages for `id`, in order. */
  function AnswersTo(log: seq<Msg>, id: nat): seq<Msg> {
    if log == [] then []
    else (if IsAnswer(log[0]) && log[0].id == id then [log[0]] else []) + AnswersTo(log[1..], id)
  }

  lemma {:induction false} AnswersAppend(a: seq<Msg>, b: seq<Msg>, id: nat)
    ensures AnswersTo(a + b, id) == AnswersTo(a, id) + AnswersTo(b, id)
  {
    if a == [] {
      assert a + b == b;
    } else {
      assert (a + b)[1..] == a[1..] + b;
      AnswersAppend(a[1..], b, id);
    }
  }

  lemma {:induction false} NoAnswers(log: seq<Msg>, id: nat)
    requires forall i :: 0 <= i < |log| && IsAnswer(log[i]) ==> log[i].id != id
    ensures AnswersTo(log, id) == []
  {
    if log != [] {
      NoAnswers(log[1..], id);
    }
  }

  // ----- What a handler's actions come to -----

  /** The first action that takes a request of kind `k` out of the pending table. */
  function Settling(k: Kind, script: seq<Action>): Option<Action> {
    if script == [] then None
    else
      var a := script[0];
      if a.Accept? || a.Reject? || (a.CloseWithError? && k.Subscribe?) then Some(a) else Settling(k, script[1..])
  }

  /** The handler of a subscription closes it before it has answered. */
  predicate ClosesFirst(k: Kind, script: seq<Action>) {
    Settling(k, script) == Some(CloseWithError)
  }

  /** The answer to an admitted request. */
  function Verdict(k: Kind, id: nat, script: seq<Action>): seq<Msg> {
    if ClosesFirst(k, script) then []
    else if Settling(k, script) == Some(Accept) then [Ok(k, id)]
    else [Error(k, id)]
  }

  lemma {:induction false} SettledSilent(t: Tracks, id: nat, script: seq<Action>)
    requires id in t.all && id !in t.pending
    ensures var (u, out) := Handle(t, id, script); id !in u.pending && AnswersTo(out, id) == []
    decreases |script|
  {
    if script != [] {
      var (t1, out) := Act(t, id, script[0]);
      NoAnswers(out, id);
      SettledSilent(t1, id, script[1..]);
      AnswersAppend(out, Handle(t1, id, script[1..]).1, id);
    }
  }

  lemma SettlingAct(t: Tracks, id: nat, a: Action)
    requires id in t.pending && id in t.all && IsTrack(t.all[id].kind)
    requires a.Accept? || a.Reject? || (a.CloseWithError? && t.all[id].kind.Subscribe?)
    ensures var (u, out) := Act(t, id, a);
      && id !in u.pending && |out| == 1 && (a.CloseWithError? ==> out[0].SubscribeDone?)
      && AnswersTo(out, id) == Verdict(t.all[id].kind, id, [a])
  {
    var out := Act(t, id, a).1;
    assert out[1..] == [];
  }

  lemma OtherAct(t: Tracks, id: nat, a: Action)
    requires id in t.pending && id in t.all && IsTrack(t.all[id].kind)
    requires !(a.Accept? || a.Reject? || (a.CloseWithError? && t.all[id].kind.Subscribe?))
    ensures var (u, out) := Act(t, id, a);
      id in u.pending && u.all[id].kind == t.all[id].kind && out == []
  {}

  /** The handler's own answer; a request it leaves alone stays pending. */
  lemma {:induction false} HandleVerdict(t: Tracks, id: nat, script: seq<Action>)
    requires id in t.pending && id in t.all && IsTrack(t.all[id].kind)
    ensures var (u, out) := Handle(t, id, script);
      var k := t.all[id].kind;
      && (id in u.pending <==> Settling(k, script).None?)
      && AnswersTo(out, id) == (if Settling(k, script).None? then [] else Verdict(k, id, script))
      && (ClosesFirst(k, script) ==> out != [] && out[0].SubscribeDone?)
      && u.all[id].kind == k
    decreases |script|
  {
    if script != [] {
      var a, k := script[0], t.all[id].kind;
      var (t1, out) := Act(t, id, a);
      var rest := Handle(t1, id, script[1..]).1;
      if a.Accept? || a.Reject? || (a.CloseWithError? && k.Subscribe?) {
        SettlingAct(t, id, a);
        SettledSilent(t1, id, script[1..]);
        HandlePersists(t, id, script);
        AnswersAppend(out, rest, id);
      } else {
        OtherAct(t, id, a);
        HandleVerdict(t1, id, script[1..]);
        assert out + rest == rest;
      }
    }
  }

  lemma UnhandledPending(k: Kind, script: seq<Action>)
    ensures Settling(k, script).None? ==> !Handled(script)
    ensures Handled(script) || Settling(k, script).None? || ClosesFirst(k, script)
  {
    if script != [] {
      UnhandledPending(k, script[1..]);
      if Handled(script) {
        var i :| 0 <= i < |script| && (script[i].Accept? || script[i].Reject?);
        assert i > 0 ==> script[1..][i - 1] == script[i];
      }
      if Handled(script[1..]) {
        var i :| 0 <= i < |script[1..]| && (script[1..][i].Accept? || script[1..][i].Reject?);
        assert script[i + 1] == script[1..][i];
      }
    }
  }

  /** An admitted request gets exactly one OK or ERROR while it is served, unless its handler closes a subscription
      before answering it: then SUBSCRIBE_DONE goes out first, and no answer at all. */
  lemma {:induction false} ServeAnswers(t: Tracks, id: nat, script: seq<Action>)
    requires id in t.pending && id in t.all && IsTrack(t.all[id].kind)
    ensures var out, k := Serve(t, id, script).1, t.all[id].kind;
      && AnswersTo(out, id) == Verdict(k, id, script)
      && (|AnswersTo(out, id)| == 1 <==> !ClosesFirst(k, script))
      && (ClosesFirst(k, script) ==> AnswersTo(out, id) == [] && out != [] && out[0].SubscribeDone?)
  {
    var k := t.all[id].kind;
    var (t1, out) := Handle(t, id, script);
    HandleVerdict(t, id, script);
    UnhandledPending(k, script);
    if !Handled(script) {
      var more := Act(t1, id, Reject).1;
      AnswersAppend(out, more, id);
      if id in t1.pending {
        SettlingAct(t1, id, Reject);
      }
    }
  }

  // ----- Reading a request -----

  /** What a ready endpoint answers to a SUBSCRIBE or FETCH it has not seen before. */
  function Reply(s: SessionState, m: Msg, script: seq<Action>): seq<Msg>
    requires m.Request?
  {
    if !m.namespaceOk then []
    else if m.id < s.localMax then Verdict(m.kind, m.id, script)
    else if m.kind.Subscribe? then [Error(m.kind, m.id)]
    else []
  }

  lemma AdmittedSent(s: SessionState, k: Kind, id: nat, script: seq<Action>)
    requires id < s.localMax && !s.tracks.Live(id)
    ensures OnTrackRequest(s, k, id, true, script).sent ==
            s.sent + GrowMessages(s.localMax, id) + Serve(Add(s.tracks, id, k), id, script).1
  {}

  lemma RefusedSent(s: SessionState, k: Kind, id: nat, namespaceOk: bool, script: seq<Action>)
    requires s.tracks.pending == {} && !(namespaceOk && id < s.localMax)
    ensures OnTrackRequest(s, k, id, namespaceOk, script).sent ==
            s.sent + if namespaceOk && k.Subscribe? then [Error(k, id)] else []
  {}

  lemma RequestAnswered(s: SessionState, m: Msg, script: seq<Action>)
    requires IsTrackRequest(m) && s.tracks.pending == {} && !s.tracks.Live(m.id)
    requires forall i :: 0 <= i < |s.sent| && IsAnswer(s.sent[i]) ==> s.sent[i].id != m.id
    ensures AnswersTo(OnTrackRequest(s, m.kind, m.id, m.namespaceOk, script).sent, m.id) == Reply(s, m, script)
  {
    NoAnswers(s.sent, m.id);
    if m.namespaceOk && m.id < s.localMax {
      var grow, t1 := GrowMessages(s.localMax, m.id), Add(s.tracks, m.id, m.kind);
      var out := Serve(t1, m.id, script).1;
      AdmittedSent(s, m.kind, m.id, script);
      NoAnswers(grow, m.id);
      ServeAnswers(t1, m.id, script);
      AnswersAppend(s.sent, grow, m.id);
      AnswersAppend(s.sent + grow, out, m.id);
    } else {
      RefusedSent(s, m.kind, m.id, m.namespaceOk, script);
      var out := if m.namespaceOk && m.kind.Subscribe? then [Error(m.kind, m.id)] else [];
      AnswersAppend(s.sent, out, m.id);
      assert out != [] ==> out[1..] == [];
    }
  }

  // ----- Afterwards -----

  /** The messages a step appends hold no answer for an ID that has arrived before. */
  ghost predicate Adds(s: SessionState, t: SessionState, id: nat) {
    && |s.sent| <= |t.sent| && s.sent == t.sent[..|s.sent|]
    && forall i :: |s.sent| <= i < |t.sent| && IsAnswer(t.sent[i]) ==> t.sent[i].id != id
  }

  lemma AddsKeeps(s: SessionState, t: SessionState, id: nat)
    requires Adds(s, t, id)
    ensures AnswersTo(t.sent, id) == AnswersTo(s.sent, id)
  {
    var out := t.sent[|s.sent|..];
    assert t.sent == s.sent + out;
    AnswersAppend(s.sent, out, id);
    NoAnswers(out, id);
  }

  lemma DeliverAdds(s: SessionState, peer: SessionState, c: Choice, id: nat)
    requires Serving(s, peer.sent) && IdsUnique(peer) && s.read < |peer.sent| && Arrived(peer.sent, s.read, id)
    ensures Adds(s, Receive(s.(read := s.read + 1), peer.sent[s.read], c), id)
  {
    var s0, m := s.(read := s.read + 1), peer.sent[s.read];
    if s.ready && IsTrackRequest(m) {
      TrackRequestServing(s0, m.kind, m.id, m.namespaceOk, c.script);
    } else {
      OtherServing(s0, m, c);
    }
  }

  lemma LateAdds(s: SessionState, id: nat, late: nat, a: Action)
    requires s.tracks.pending == {}
    ensures Adds(s, UseWriter(s, late, a), id)
  {}

  lemma CallAdds(s: SessionState, inbox: seq<Msg>, step: Step, id: nat)
    requires !step.Deliver? && !step.Late?
    ensures Adds(s, StepAt(s, inbox, step), id)
  {}

  lemma StepKeepsAnswers(s: SessionState, peer: SessionState, step: Step, id: nat)
    requires Serving(s, peer.sent) && IdsUnique(peer) && Arrived(peer.sent, s.read, id)
    ensures AnswersTo(StepAt(s, peer.sent, step).sent, id) == AnswersTo(s.sent, id)
  {
    if step.Deliver? {
      DeliverIs(s, peer.sent, step.choice);
      if !s.failed && s.read < |peer.sent| {
        DeliverAdds(s, peer, step.choice, id);
        AddsKeeps(s, StepAt(s, peer.sent, step), id);
      }
    } else {
      if step.Late? {
        LateAdds(s, id, step.id, step.action);
      } else {
        CallAdds(s, peer.sent, step, id);
      }
      AddsKeeps(s, StepAt(s, peer.sent, step), id);
    }
  }

  // ----- Over whole runs -----

  function Side(n: Net, p: Perspective): SessionState {
    if p.Client? then n.client else n.server
  }

  function Other(p: Perspective): Perspective {
    if p.Client? then Server else Client
  }

  ghost predicate Read(n: Net, p: Perspective, id: nat) {
    Arrived(Side(n, Other(p)).sent, Side(n, p).read, id)
  }

  lemma ReadsOn(s: SessionState, inbox: seq<Msg>, step: Step, id: nat)
    requires (!s.ready ==> Fresh(s)) && Arrived(inbox, s.read, id)
    ensures Arrived(inbox, StepAt(s, inbox, step).read, id)
  {
    var m := StepMove(s, inbox, step);
    ArrivedMore(inbox, s.read, [], StepAt(s, inbox, step).read, id);
    assert inbox + [] == inbox;
  }

  lemma WritesOn(s: SessionState, inbox: seq<Msg>, step: Step, k: nat, id: nat)
    requires (!s.ready ==> Fresh(s)) && Arrived(s.sent, k, id)
    ensures Arrived(StepAt(s, inbox, step).sent, k, id)
  {
    var m := StepMove(s, inbox, step);
    var t := StepAt(s, inbox, step);
    var out := t.sent[|s.sent|..];
    assert t.sent == s.sent + out;
    ArrivedMore(s.sent, k, out, k, id);
  }

  lemma StaysRead(n: Net, e: Event, p: Perspective, id: nat)
    requires Sound(n) && Read(n, p, id)
    ensures Read(Apply(n, e), p, id)
  {
    var s, r := Side(n, e.at), Side(n, Other(e.at));
    if e.at == p {
      ReadsOn(s, r.sent, e.step, id);
    } else {
      WritesOn(s, r.sent, e.step, r.read, id);
    }
  }

  lemma {:induction false} RunKeepsAnswers(n: Net, events: seq<Event>, p: Perspective, id: nat)
    requires Sound(n) && Read(n, p, id)
    ensures AnswersTo(Side(Run(n, events), p).sent, id) == AnswersTo(Side(n, p).sent, id)
    decreases |events|
  {
    if events != [] {
      var e := events[0];
      ApplySound(n, e);
      StaysRead(n, e, p, id);
      if e.at == p {
        StepKeepsAnswers(Side(n, p), Side(n, Other(p)), e.step, id);
      }
      RunKeepsAnswers(Apply(n, e), events[1..], p, id);
    }
  }

  /** A SUBSCRIBE or FETCH is the next message side `p` reads. */
  ghost predicate AboutToRead(n: Net, p: Perspective) {
    var s, r := Side(n, p), Side(n, Other(p));
    !s.failed && s.read < |r.sent| && IsTrackRequest(r.sent[s.read])
  }

  lemma ReadAnswers(n: Net, p: Perspective, c: Choice)
    requires Sound(n) && AboutToRead(n, p)
    ensures var s, m, t := Side(n, p), Side(n, Other(p)).sent[Side(n, p).read], Apply(n, Event(p, Deliver(c)));
      Read(t, p, m.id) && AnswersTo(Side(t, p).sent, m.id) == Reply(s, m, c.script)
  {
    var s, r := Side(n, p), Side(n, Other(p));
    var m, s0 := r.sent[s.read], s.(read := s.read + 1);
    assert s.ready;
    NextIsNew(s, r);
    DeliverIs(s, r.sent, c);
    RequestAnswered(s0, m, c.script);
    var move := StepMove(s, r.sent, Deliver(c));
    assert r.sent[s.read].id == m.id;
  }

  /** In every run, whatever happened before and whatever happens after: a SUBSCRIBE or FETCH, once read, has
      exactly the answer of `Reply`, from the moment the reader is done with it and for ever. */
  lemma {:induction false} AnswerIsFinal(clientMax: nat, serverMax: nat, before: seq<Event>, p: Perspective, c: Choice,
                                         after: seq<Event>)
    requires AboutToRead(Run(Init(clientMax, serverMax), before), p)
    ensures var n := Run(Init(clientMax, serverMax), before);
      var s, m := Side(n, p), Side(n, Other(p)).sent[Side(n, p).read];
      var end := Run(Apply(n, Event(p, Deliver(c))), after);
      AnswersTo(Side(end, p).sent, m.id) == Reply(s, m, c.script)
  {
    var n0 := Init(clientMax, serverMax);
    InitSound(clientMax, serverMax);
    RunSound(n0, before);
    var n, e := Run(n0, before), Event(p, Deliver(c));
    var m := Side(n, Other(p)).sent[Side(n, p).read];
    ReadAnswers(n, p, c);
    ApplySound(n, e);
    RunKeepsAnswers(Apply(n, e), after, p, m.id);
  }

  /** So an admitted request is answered exactly once, unless it is a SUBSCRIBE whose handler closes it before
      answering, which is never answered. */
  lemma {:induction false} AnsweredUnlessClosed(clientMax: nat, serverMax: nat, before: seq<Event>, p: Perspective,
                                                c: Choice, after: seq<Event>)
    requires var n := Run(Init(clientMax, serverMax), before);
      AboutToRead(n, p) && Admits(Side(n, p), Side(n, Other(p)).sent[Side(n, p).read])
    ensures var n := Run(Init(clientMax, serverMax), before);
      var m, end := Side(n, Other(p)).sent[Side(n, p).read], Run(Apply(n, Event(p, Deliver(c))), after);
      |AnswersTo(Side(end, p).sent, m.id)| == if ClosesFirst(m.kind, c.script) then 0 else 1
  {
    AnswerIsFinal(clientMax, serverMax, before, p, c, after);
  }
}
