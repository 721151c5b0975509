/** The two models of an endpoint joined: the session with its peer, and the requests its application has made.  What
    the session model leaves to a choice, whether a reply ends the reader, is decided here by the request tables. */
module JointReplies {
  import opened RequestIds
  import opened SessionTypes
  import opened LocalTracks
  import opened SessionModel
  import opened Network
  import opened CreditMoves
  import opened CreditSafety
  import opened Answers
  import opened Protocol
  import opened ExactAnswers
  import Out = OutgoingRequests

  // ----- An answer is of the kind of its request -----

  /** A request with this ID and kind is among the first `k` messages. */
  ghost predicate Asked(inbox: seq<Msg>, k: nat, id: nat, kind: Kind) {
    exists i :: 0 <= i < k && i < |inbox| && inbox[i].Request? && inbox[i].id == id && inbox[i].kind == kind
  }

  ghost predicate Matching(log: seq<Msg>, inbox: seq<Msg>, k: nat) {
    forall i :: 0 <= i < |log| && IsAnswer(log[i]) ==> Asked(inbox, k, log[i].id, log[i].kind)
  }

  ghost predicate OfKind(out: seq<Msg>, kind: Kind) {
    forall i :: 0 <= i < |out| && IsAnswer(out[i]) ==> out[i].kind == kind
  }

  lemma ActKind(t: Tracks, id: nat, a: Action)
    requires id in t.all
    ensures OfKind(Act(t, id, a).1, t.all[id].kind) && Act(t, id, a).0.all[id].kind == t.all[id].kind
  {}

  lemma {:induction false} HandleKind(t: Tracks, id: nat, script: seq<Action>)
    requires id in t.all
    ensures OfKind(Handle(t, id, script).1, t.all[id].kind)
    ensures Handle(t, id, script).0.all[id].kind == t.all[id].kind
    decreases |script|
  {
    if script != [] {
      ActKind(t, id, script[0]);
      HandleKind(Act(t, id, script[0]).0, id, script[1..]);
    }
  }

  lemma ServeKind(t: Tracks, id: nat, script: seq<Action>)
    requires id in t.all
    ensures OfKind(Serve(t, id, script).1, t.all[id].kind)
  {
    HandleKind(t, id, script);
    ActKind(Handle(t, id, script).0, id, Reject);
  }

  /** What serving a request appends. */
  lemma RequestKind(s: SessionState, k: Kind, id: nat, namespaceOk: bool, script: seq<Action>) returns (out: seq<Msg>)
    requires s.tracks.pending == {} && !s.tracks.Live(id)
    ensures OnTrackRequest(s, k, id, namespaceOk, script).sent == s.sent + out && OfKind(out, k)
  {
    if namespaceOk && id < s.localMax {
      var grow, served := GrowMessages(s.localMax, id), Serve(Add(s.tracks, id, k), id, script).1;
      AdmittedSent(s, k, id, script);
      ServeKind(Add(s.tracks, id, k), id, script);
      out := grow + served;
      assert s.sent + grow + served == s.sent + out;
    } else {
      RefusedSent(s, k, id, namespaceOk, script);
      out := if namespaceOk && k.Subscribe? then [Error(k, id)] else [];
    }
  }

  lemma AskedMore(inbox: seq<Msg>, k: nat, more: seq<Msg>, l: nat, id: nat, kind: Kind)
    requires Asked(inbox, k, id, kind) && k <= l
    ensures Asked(inbox + more, l, id, kind)
  {
    var i :| 0 <= i < k && i < |inbox| && inbox[i].Request? && inbox[i].id == id && inbox[i].kind == kind;
    assert (inbox + more)[i] == inbox[i];
  }

  lemma MatchingMore(log: seq<Msg>, inbox: seq<Msg>, k: nat, more: seq<Msg>, l: nat)
    requires Matching(log, inbox, k) && k <= l
    ensures Matching(log, inbox + more, l)
  {
    forall i | 0 <= i < |log| && IsAnswer(log[i])
      ensures Asked(inbox + more, l, log[i].id, log[i].kind)
    {
      AskedMore(inbox, k, more, l, log[i].id, log[i].kind);
    }
  }

  /** A log extended by messages whose answers, if any, are to the message just read. */
  lemma MatchingNext(log: seq<Msg>, out: seq<Msg>, inbox: seq<Msg>, k: nat, l: nat)
    requires Matching(log, inbox, k) && k <= l
    requires forall i :: 0 <= i < |out| && IsAnswer(out[i]) ==> Asked(inbox, l, out[i].id, out[i].kind)
    ensures Matching(log + out, inbox, l)
  {
    MatchingMore(log, inbox, k, [], l);
    assert inbox + [] == inbox;
  }

  lemma TrackRequestMatching(s: SessionState, peer: SessionState, c: Choice)
    requires Serving(s, peer.sent) && IdsUnique(peer) && s.ready && s.read < |peer.sent|
    requires IsTrackRequest(peer.sent[s.read]) && Matching(s.sent, peer.sent, s.read)
    ensures Matching(Receive(s.(read := s.read + 1), peer.sent[s.read], c).sent, peer.sent, s.read + 1)
  {
    var s0, m := s.(read := s.read + 1), peer.sent[s.read];
    NextIsNew(s, peer);
    var out := RequestKind(s0, m.kind, m.id, m.namespaceOk, c.script);
    TrackRequestServing(s0, m.kind, m.id, m.namespaceOk, c.script);
    forall i | 0 <= i < |out| && IsAnswer(out[i])
      ensures Asked(peer.sent, s.read + 1, out[i].id, out[i].kind)
    {
      assert (s.sent + out)[|s.sent| + i] == out[i];
      assert peer.sent[s.read].id == out[i].id && peer.sent[s.read].kind == out[i].kind;
    }
    MatchingNext(s.sent, out, peer.sent, s.read, s.read + 1);
  }

  lemma QuietMatching(s: SessionState, t: SessionState, inbox: seq<Msg>)
    requires Matching(s.sent, inbox, s.read) && s.read <= t.read
    requires |s.sent| <= |t.sent| && s.sent == t.sent[..|s.sent|]
    requires forall i :: |s.sent| <= i < |t.sent| ==> !IsAnswer(t.sent[i])
    ensures Matching(t.sent, inbox, t.read)
  {
    var out := t.sent[|s.sent|..];
    assert t.sent == s.sent + out;
    MatchingNext(s.sent, out, inbox, s.read, t.read);
  }

  lemma DeliverMatching(s: SessionState, peer: SessionState, c: Choice)
    requires Serving(s, peer.sent) && IdsUnique(peer) && s.read < |peer.sent| && Matching(s.sent, peer.sent, s.read)
    ensures var t := Receive(s.(read := s.read + 1), peer.sent[s.read], c); Matching(t.sent, peer.sent, s.read + 1)
  {
    var s0, m := s.(read := s.read + 1), peer.sent[s.read];
    if s.ready && IsTrackRequest(m) {
      TrackRequestMatching(s, peer, c);
    } else {
      OtherServing(s0, m, c);
      QuietMatching(s, Receive(s0, m, c).(read := s.read + 1), peer.sent);
    }
  }

  lemma LateQuiet(s: SessionState, id: nat, a: Action)
    requires s.tracks.pending == {}
    ensures var t := UseWriter(s, id, a);
      && t.read == s.read && |s.sent| <= |t.sent| && s.sent == t.sent[..|s.sent|]
      && forall i :: |s.sent| <= i < |t.sent| ==> !IsAnswer(t.sent[i])
  {}

  lemma CallQuiet(s: SessionState, inbox: seq<Msg>, step: Step)
    requires !step.Deliver? && !step.Late?
    ensures var t := StepAt(s, inbox, step);
      && t.read == s.read && |s.sent| <= |t.sent| && s.sent == t.sent[..|s.sent|]
      && forall i :: |s.sent| <= i < |t.sent| ==> !IsAnswer(t.sent[i])
  {}

  lemma StepMatching(s: SessionState, peer: SessionState, step: Step)
    requires Serving(s, peer.sent) && IdsUnique(peer) && (!s.ready ==> Fresh(s)) && Matching(s.sent, peer.sent, s.read)
    ensures var t := StepAt(s, peer.sent, step); Matching(t.sent, peer.sent, t.read)
  {
    var t := StepAt(s, peer.sent, step);
    if step.Deliver? {
      DeliverIs(s, peer.sent, step.choice);
      var m := StepMove(s, peer.sent, step);
      if !s.failed && s.read < |peer.sent| {
        DeliverMatching(s, peer, step.choice);
      }
    } else {
      if step.Late? {
        LateQuiet(s, step.id, step.action);
      } else {
        CallQuiet(s, peer.sent, step);
      }
      QuietMatching(s, t, peer.sent);
    }
  }

  // ----- The joint endpoint -----

  /** The network, and the requests of the application at side `p`. */
  datatype Joint = Joint(net: Net, out: Out.Out)

  datatype JointStep =
    | Elsewhere(e: Event)                    // the other side, and calls of this one that are not about requests
    | Ask(kind: Kind)                        // an application call takes an ID
    | Put(id: nat, namespaceOk: bool)        // ... enters the pending table and writes its request
    | Caller(step: Out.Step)                 // ... gives up, gets its answer, or forgets it
    | Reader(choice: Choice)                 // the next locked section of the reader

  function With(n: Net, p: Perspective, s: SessionState): Net {
    if p.Client? then n.(client := s) else n.(server := s)
  }

  /** SUBSCRIBE_OK is written without an alias, which reads as alias 0. */
  function ReplyOf(m: Msg): Out.Reply
    requires IsAnswer(m)
  {
    if m.Error? then Out.TrackError(m.id)
    else if m.kind.Subscribe? then Out.SubscribeOk(m.id, 0)
    else Out.FetchOk(m.id)
  }

  function ReadSection(j: Joint, p: Perspective, c: Choice): Joint {
    var s, inbox := Side(j.net, p), Side(j.net, Other(p)).sent;
    if !j.out.reader.Idle? then
      var out := Out.StepOf(j.out, Out.Continue);
      Joint(if out.failed then With(j.net, p, Fail(s)) else j.net, out)
    else if s.failed || s.read >= |inbox| then j
    else if IsAnswer(inbox[s.read]) then
      var out := Out.StepOf(j.out, Out.Read(ReplyOf(inbox[s.read])));
      Joint(Apply(j.net, Event(p, Deliver(Choice([], [], !out.failed)))), out)
    else
      var net := Apply(j.net, Event(p, Deliver(c)));
      Joint(net, j.out.(ids := Side(net, p).ids))
  }

  function JointApply(j: Joint, p: Perspective, step: JointStep): Joint {
    var s := Side(j.net, p);
    match step
    case Elsewhere(e) =>
      if e.at == p && (e.step.Take? || e.step.Send? || e.step.Deliver?) then j else j.(net := Apply(j.net, e))
    case Ask(k) =>
      if s.ready then Joint(Apply(j.net, Event(p, Take(k))), Out.StepOf(j.out, Out.Take(k))) else j
    case Put(id, ok) =>
      if s.ready && id in s.unsent
      then Joint(Apply(j.net, Event(p, Send(id, ok))), Out.StepOf(j.out, Out.Enter(id)))
      else j
    case Caller(o) =>
      if o.Cancelled? || o.Obtain? || o.Forget? then j.(out := Out.StepOf(j.out, o)) else j
    case Reader(c) => ReadSection(j, p, c)
  }

  function JointRun(j: Joint, p: Perspective, steps: seq<JointStep>): Joint
    decreases |steps|
  {
    if steps == [] then j else JointRun(JointApply(j, p, steps[0]), p, steps[1..])
  }

  function JointInit(clientMax: nat, serverMax: nat, p: Perspective): Joint {
    Joint(Init(clientMax, serverMax), Out.Start(Generator(if p.Client? then 0 else 1, 0, 2)))
  }

  // ----- What every step keeps -----

  /** An answer to `id` is among the first `k` messages. */
  ghost predicate Answered(log: seq<Msg>, k: nat, id: nat) {
    exists i :: 0 <= i < k && i < |log| && IsAnswer(log[i]) && log[i].id == id
  }

  /** The session and the application agree on which IDs are taken and which requests are written. */
  ghost predicate Agreed(s: SessionState, o: Out.Out) {
    && o.ids == s.ids && (o.failed ==> s.failed)
    && (forall id :: id in s.unsent ==> id in o.calls && o.calls[id] == Out.Call(s.unsent[id], Out.Taken))
    && (forall i :: 0 <= i < |s.sent| && s.sent[i].Request? ==> Made(o, s.sent[i].id, s.sent[i].kind))
  }

  /** The application has made a request of this kind. */
  ghost predicate Made(o: Out.Out, id: nat, kind: Kind) {
    id in o.calls && !o.calls[id].stage.Taken? && o.calls[id].kind == kind
  }

  /** A track request without an answer: pending as long as its caller waits. */
  ghost predicate Awaits(o: Out.Out, id: nat) {
    && id in o.calls && id !in o.written && !Out.InReader(o, id)
    && if o.calls[id].stage.GaveUp? then id !in o.table.pending
       else o.calls[id].stage.Waiting? && id in o.table.pending
  }

  ghost predicate Entered(o: Out.Out, id: nat) {
    id in o.calls && !o.calls[id].stage.Taken? && IsTrack(o.calls[id].kind)
  }

  ghost predicate Awaiting(o: Out.Out, log: seq<Msg>, k: nat) {
    && (forall id :: Entered(o, id) && !Answered(log, k, id) ==> Awaits(o, id))
    && (!o.reader.Idle? ==> Answered(log, k, o.reader.id))
  }

  ghost predicate Sane(o: Out.Out) {
    Out.OnePlace(o) && Out.OneGranted(o)
  }

  ghost predicate Together(s: SessionState, r: SessionState, o: Out.Out) {
    Sane(o) && Agreed(s, o) && Awaiting(o, r.sent, s.read) && Matching(r.sent, s.sent, r.read)
  }

  ghost predicate JointSound(j: Joint, p: Perspective) {
    Sound(j.net) && Together(Side(j.net, p), Side(j.net, Other(p)), j.out)
  }

  lemma SaneStep(o: Out.Out, step: Out.Step)
    requires Sane(o) && Out.Native(o, step)
    ensures Sane(Out.StepOf(o, step))
  {
    Out.StepOnePlace(o, step);
    Out.StepGranted(o, step);
  }

  lemma AnsweredMore(log: seq<Msg>, more: seq<Msg>, k: nat, id: nat)
    requires k <= |log|
    ensures Answered(log + more, k, id) <==> Answered(log, k, id)
  {
    if Answered(log, k, id) {
      var i :| 0 <= i < k && i < |log| && IsAnswer(log[i]) && log[i].id == id;
      assert (log + more)[i] == log[i];
    }
  }

  lemma AwaitingMore(o: Out.Out, log: seq<Msg>, more: seq<Msg>, k: nat)
    requires Awaiting(o, log, k) && k <= |log|
    ensures Awaiting(o, log + more, k)
  {
    forall id
      ensures Answered(log + more, k, id) <==> Answered(log, k, id)
    {
      AnsweredMore(log, more, k, id);
    }
  }

  /** A message that is no answer is read. */
  lemma AwaitingRead(o: Out.Out, log: seq<Msg>, k: nat)
    requires Awaiting(o, log, k) && k < |log| && !IsAnswer(log[k])
    ensures Awaiting(o, log, k + 1)
  {
    forall id
      ensures Answered(log, k + 1, id) <==> Answered(log, k, id)
    {}
  }

  // ----- Steps at the other side -----

  lemma PeerTogether(s: SessionState, r: SessionState, o: Out.Out, step: Step)
    requires Together(s, r, o) && Serving(r, s.sent) && IdsUnique(s) && (!r.ready ==> Fresh(r)) && s.read <= |r.sent|
    ensures Together(s, StepAt(r, s.sent, step), o)
  {
    var t := StepAt(r, s.sent, step);
    var m := StepMove(r, s.sent, step);
    MoveAppends(r, s.sent, m, t);
    AwaitingMore(o, r.sent, t.sent[|r.sent|..], s.read);
    StepMatching(r, s, step);
  }

  // ----- Steps of this side that leave its requests alone -----

  lemma AgreedQuiet(s: SessionState, t: SessionState, o: Out.Out)
    requires Agreed(s, o) && t.ids == s.ids && (s.failed ==> t.failed)
    requires forall id :: id in t.unsent ==> id in s.unsent && t.unsent[id] == s.unsent[id]
    requires |s.sent| <= |t.sent| && s.sent == t.sent[..|s.sent|]
    requires forall i :: |s.sent| <= i < |t.sent| ==> !t.sent[i].Request?
    ensures Agreed(t, o)
  {}

  lemma OwnMatching(s: SessionState, t: SessionState, r: SessionState, inbox: seq<Msg>, m: Move)
    requires Matching(r.sent, s.sent, r.read) && Moves(s, inbox, m, t)
    ensures Matching(r.sent, t.sent, r.read)
  {
    MoveAppends(s, inbox, m, t);
    MatchingMore(r.sent, s.sent, r.read, t.sent[|s.sent|..], r.read);
  }

  /** Moves that take no ID and write no request. */
  lemma QuietAgreed(s: SessionState, t: SessionState, o: Out.Out, inbox: seq<Msg>, m: Move)
    requires Agreed(s, o) && Moves(s, inbox, m, t) && !m.Issue? && !m.Emit?
    ensures Agreed(t, o.(ids := t.ids)) || (s.failed && !t.failed)
  {
    MoveAppends(s, inbox, m, t);
    AgreedQuiet(s.(ids := t.ids), t, o.(ids := t.ids));
  }

  lemma OwnTogether(s: SessionState, r: SessionState, o: Out.Out, step: Step)
    requires Together(s, r, o) && (!s.ready ==> Fresh(s)) && (step.Abandon? || step.Tell? || step.Late?)
    ensures Together(StepAt(s, r.sent, step), r, o)
  {
    var t := StepAt(s, r.sent, step);
    var m := StepMove(s, r.sent, step);
    StaysPut(s, r.sent, step);
    QuietAgreed(s, t, o, r.sent, m);
    assert o.(ids := t.ids) == o;
    OwnMatching(s, t, r, r.sent, m);
  }

  lemma StaysPut(s: SessionState, inbox: seq<Msg>, step: Step)
    requires step.Abandon? || step.Tell? || step.Late?
    ensures var t := StepAt(s, inbox, step); t.ids == s.ids && t.read == s.read && t.failed == s.failed
  {}

  // ----- Taking an ID and writing a request -----

  lemma TakeAwaiting(o: Out.Out, k: Kind, log: seq<Msg>, n: nat)
    requires Sane(o) && Awaiting(o, log, n)
    ensures Awaiting(Out.StepOf(o, Out.Take(k)), log, n)
  {
    var o' := Out.StepOf(o, Out.Take(k));
    forall id | Entered(o', id) && !Answered(log, n, id)
      ensures Awaits(o', id)
    {
      assert Entered(o, id);
    }
  }

  lemma TakeAgreed(s: SessionState, o: Out.Out, k: Kind)
    requires Agreed(s, o) && Sane(o) && s.ready
    ensures Agreed(Allocate(s, k), Out.StepOf(o, Out.Take(k)))
  {
    if s.ids.id >= s.ids.max {
      AgreedQuiet(s, Allocate(s, k), o);
    } else {
      assert s.ids.id !in o.calls;
    }
  }

  /** The call waits; a track request is pending. */
  ghost predicate NowWaits(o: Out.Out, o': Out.Out, id: nat)
    requires id in o.calls
  {
    && o'.calls == o.calls[id := Out.Call(o.calls[id].kind, Out.Waiting)] && o'.ids == o.ids
    && o'.written == o.written && o'.reader == o.reader && o'.failed == o.failed
    && o'.table.pending == (if IsTrack(o.calls[id].kind) then o.table.pending + {id} else o.table.pending)
  }

  lemma EnterTrackEffect(o: Out.Out, id: nat)
    requires Sane(o) && id in o.calls && o.calls[id].stage.Taken? && IsTrack(o.calls[id].kind)
    ensures NowWaits(o, Out.EnterTable(o, id), id)
  {}

  lemma EnterEffect(o: Out.Out, id: nat)
    requires Sane(o) && id in o.calls && o.calls[id].stage.Taken?
    ensures NowWaits(o, Out.StepOf(o, Out.Enter(id)), id)
  {
    if IsTrack(o.calls[id].kind) {
      EnterTrackEffect(o, id);
    }
  }

  lemma EnterAwaiting(o: Out.Out, id: nat, log: seq<Msg>, n: nat)
    requires Sane(o) && Awaiting(o, log, n) && id in o.calls && o.calls[id].stage.Taken?
    ensures Awaiting(Out.StepOf(o, Out.Enter(id)), log, n)
  {
    var o' := Out.StepOf(o, Out.Enter(id));
    EnterEffect(o, id);
    forall i | Entered(o', i) && !Answered(log, n, i)
      ensures Awaits(o', i)
    {
      if i != id {
        assert Entered(o, i);
      }
    }
  }

  lemma EnterAgreed(s: SessionState, o: Out.Out, id: nat, ok: bool)
    requires Agreed(s, o) && Sane(o) && id in s.unsent && IdsUnique(s)
    ensures Agreed(SendRequest(s, id, ok), Out.StepOf(o, Out.Enter(id)))
  {
    EnterEffect(o, id);
  }

  lemma AskTogether(s: SessionState, r: SessionState, o: Out.Out, k: Kind)
    requires Together(s, r, o) && s.ready
    ensures Together(StepAt(s, r.sent, Take(k)), r, Out.StepOf(o, Out.Take(k)))
  {
    SaneStep(o, Out.Take(k));
    TakeAgreed(s, o, k);
    TakeAwaiting(o, k, r.sent, s.read);
    var m := StepMove(s, r.sent, Take(k));
    OwnMatching(s, StepAt(s, r.sent, Take(k)), r, r.sent, m);
  }

  lemma PutTogether(s: SessionState, r: SessionState, o: Out.Out, id: nat, ok: bool)
    requires Together(s, r, o) && s.ready && id in s.unsent && IdsUnique(s)
    ensures Together(StepAt(s, r.sent, Send(id, ok)), r, Out.StepOf(o, Out.Enter(id)))
  {
    SaneStep(o, Out.Enter(id));
    EnterAgreed(s, o, id, ok);
    EnterAwaiting(o, id, r.sent, s.read);
    var m := StepMove(s, r.sent, Send(id, ok));
    OwnMatching(s, StepAt(s, r.sent, Send(id, ok)), r, r.sent, m);
  }

  // ----- Callers -----

  /** Only the call of one ID changes, and only from waiting to done. */
  ghost predicate CallerEffect(o: Out.Out, o': Out.Out, id: nat) {
    && o'.ids == o.ids && o'.failed == o.failed && o'.written == o.written && o'.reader == o.reader
    && o'.calls.Keys == o.calls.Keys
    && (forall i :: i in o.calls && i != id ==> o'.calls[i] == o.calls[i])
    && (forall i :: i != id ==> (i in o'.table.pending <==> i in o.table.pending))
    && (id in o.calls ==> o'.calls[id].kind == o.calls[id].kind
                          && (o'.calls[id].stage.Taken? <==> o.calls[id].stage.Taken?))
    && (Awaits(o, id) && IsTrack(o.calls[id].kind) ==> Awaits(o', id))
  }

  lemma CallerSteps(o: Out.Out, step: Out.Step)
    requires Sane(o) && (step.Cancelled? || step.Obtain? || step.Forget?)
    ensures CallerEffect(o, Out.StepOf(o, step), step.id)
  {}

  lemma CallerAwaiting(o: Out.Out, step: Out.Step, log: seq<Msg>, k: nat)
    requires Sane(o) && Awaiting(o, log, k) && (step.Cancelled? || step.Obtain? || step.Forget?)
    ensures Awaiting(Out.StepOf(o, step), log, k)
  {
    var o' := Out.StepOf(o, step);
    CallerSteps(o, step);
    forall i | Entered(o', i) && !Answered(log, k, i)
      ensures Awaits(o', i)
    {
      assert Entered(o, i) && Awaits(o, i);
    }
  }

  lemma CallerAgreed(s: SessionState, o: Out.Out, o': Out.Out, id: nat)
    requires Agreed(s, o) && CallerEffect(o, o', id) && (id in o.calls && o.calls[id].stage.Taken? ==> o' == o)
    ensures Agreed(s, o')
  {}

  lemma CallerTogether(s: SessionState, r: SessionState, o: Out.Out, step: Out.Step)
    requires Together(s, r, o) && (step.Cancelled? || step.Obtain? || step.Forget?)
    ensures Together(s, r, Out.StepOf(o, step))
  {
    SaneStep(o, step);
    CallerSteps(o, step);
    CallerAwaiting(o, step, r.sent, s.read);
    if !step.Forget? {
      CallerAgreed(s, o, Out.StepOf(o, step), step.id);
    }
  }

  // ----- The reader -----

  lemma ContinueEffect(o: Out.Out)
    requires Sane(o)
    ensures var o' := Out.StepOf(o, Out.Continue);
      && o'.calls == o.calls && o'.ids == o.ids && o'.table.pending == o.table.pending && (o.failed ==> o'.failed)
      && (o'.reader.Idle? || (!o.reader.Idle? && o'.reader.id == o.reader.id))
      && (forall id :: id in o'.written ==> id in o.written || (!o.reader.Idle? && id == o.reader.id))
  {}

  lemma ContinueAwaiting(o: Out.Out, log: seq<Msg>, k: nat)
    requires Sane(o) && Awaiting(o, log, k)
    ensures Awaiting(Out.StepOf(o, Out.Continue), log, k)
  {
    var o' := Out.StepOf(o, Out.Continue);
    ContinueEffect(o);
    forall i | Entered(o', i) && !Answered(log, k, i)
      ensures Awaits(o', i)
    {
      assert Entered(o, i) && Awaits(o, i);
    }
  }

  lemma ContinueTogether(s: SessionState, r: SessionState, o: Out.Out)
    requires Together(s, r, o)
    ensures var o' := Out.StepOf(o, Out.Continue); Together(if o'.failed then Fail(s) else s, r, o')
  {
    SaneStep(o, Out.Continue);
    ContinueEffect(o);
    ContinueAwaiting(o, r.sent, s.read);
  }

  /** The next answer is to a request of this side that has no answer yet, and of its kind. */
  lemma NextAnswer(s: SessionState, r: SessionState, o: Out.Out)
    requires Together(s, r, o) && Serving(r, s.sent) && s.read < |r.sent| && IsAnswer(r.sent[s.read])
    ensures var m := r.sent[s.read];
      Entered(o, m.id) && o.calls[m.id].kind == m.kind && !Answered(r.sent, s.read, m.id) && Awaits(o, m.id)
  {
    var m := r.sent[s.read];
    assert Asked(s.sent, r.read, m.id, m.kind);
  }

  /** Its first locked section. */
  lemma AnswerEffect(o: Out.Out, m: Msg)
    requires Sane(o) && IsAnswer(m) && Awaits(o, m.id) && o.calls[m.id].kind == m.kind && o.reader.Idle? && !o.failed
    ensures var o' := Out.StepOf(o, Out.Read(ReplyOf(m)));
      && o'.calls == o.calls && o'.ids == o.ids && o'.written == o.written
      && (o'.failed <==> o.calls[m.id].stage.GaveUp?)
      && (!o'.failed ==> !o'.reader.Idle? && o'.reader.id == m.id) && (o'.failed ==> o'.reader == o.reader)
      && (forall i :: i != m.id ==> (i in o'.table.pending <==> i in o.table.pending))
  {}

  lemma ReadAwaiting(o: Out.Out, log: seq<Msg>, k: nat)
    requires Sane(o) && Awaiting(o, log, k) && k < |log| && IsAnswer(log[k]) && Awaits(o, log[k].id)
    requires o.calls[log[k].id].kind == log[k].kind && o.reader.Idle? && !o.failed
    ensures Awaiting(Out.StepOf(o, Out.Read(ReplyOf(log[k]))), log, k + 1)
  {
    var m := log[k];
    var o' := Out.StepOf(o, Out.Read(ReplyOf(m)));
    AnswerEffect(o, m);
    assert Answered(log, k + 1, m.id);
    forall i | Entered(o', i) && !Answered(log, k + 1, i)
      ensures Awaits(o', i)
    {
      assert Entered(o, i) && Awaits(o, i);
    }
  }

  lemma AnswerDelivered(s: SessionState, inbox: seq<Msg>, ok: bool)
    requires s.ready && !s.failed && s.read < |inbox| && IsAnswer(inbox[s.read])
    ensures StepAt(s, inbox, Deliver(Choice([], [], ok))) == s.(read := s.read + 1, failed := !ok)
  {}

  lemma AnswerTogether(s: SessionState, r: SessionState, o: Out.Out)
    requires Together(s, r, o) && Serving(r, s.sent) && s.ready && !s.failed && o.reader.Idle?
    requires s.read < |r.sent| && IsAnswer(r.sent[s.read])
    ensures var o' := Out.StepOf(o, Out.Read(ReplyOf(r.sent[s.read])));
      Together(StepAt(s, r.sent, Deliver(Choice([], [], !o'.failed))), r, o')
  {
    var m := r.sent[s.read];
    var o' := Out.StepOf(o, Out.Read(ReplyOf(m)));
    NextAnswer(s, r, o);
    AnswerEffect(o, m);
    ReadAwaiting(o, r.sent, s.read);
    SaneStep(o, Out.Read(ReplyOf(m)));
    AnswerDelivered(s, r.sent, !o'.failed);
  }

  lemma SaneIds(o: Out.Out, g: Generator)
    requires Sane(o) && o.ids.id <= g.id && g.interval == o.ids.interval
    ensures Sane(o.(ids := g))
  {
    var o' := o.(ids := g);
    forall id
      ensures (Out.Granted(o', id) <==> Out.Granted(o, id)) && (Out.Unanswered(o', id) <==> Out.Unanswered(o, id))
    {}
  }

  lemma OtherTogether(s: SessionState, r: SessionState, o: Out.Out, c: Choice)
    requires Together(s, r, o) && (!s.ready ==> Fresh(s)) && !s.failed && o.reader.Idle?
    requires s.read < |r.sent| && !IsAnswer(r.sent[s.read])
    ensures var t := StepAt(s, r.sent, Deliver(c)); Together(t, r, o.(ids := t.ids))
  {
    var t := StepAt(s, r.sent, Deliver(c));
    var m := StepMove(s, r.sent, Deliver(c));
    DeliverReads(s, r.sent, c);
    QuietAgreed(s, t, o, r.sent, m);
    SaneIds(o, t.ids);
    AwaitingRead(o, r.sent, s.read);
    OwnMatching(s, t, r, r.sent, m);
  }

  lemma DeliverReads(s: SessionState, inbox: seq<Msg>, c: Choice)
    requires (!s.ready ==> Fresh(s)) && !s.failed && s.read < |inbox|
    ensures StepAt(s, inbox, Deliver(c)).read == s.read + 1
  {
    DeliverIs(s, inbox, c);
    var m := ReceiveMove(s, inbox, c);
  }

  // ----- Over whole runs -----

  lemma FailSound(n: Net, p: Perspective)
    requires Sound(n)
    ensures Sound(With(n, p, Fail(Side(n, p))))
  {}

  lemma AnswerIsLate(s: SessionState, r: SessionState)
    requires Greets(s) && Greets(r) && s.read < |r.sent| && IsAnswer(r.sent[s.read])
    ensures s.ready
  {}

  /** The reader of side `p` is about to read an answer to a request of its application. */
  ghost predicate AnswerNext(j: Joint, p: Perspective) {
    var s, r := Side(j.net, p), Side(j.net, Other(p));
    j.out.reader.Idle? && !s.failed && s.read < |r.sent| && IsAnswer(r.sent[s.read])
  }

  lemma ContinueSound(j: Joint, p: Perspective, c: Choice)
    requires JointSound(j, p) && !j.out.reader.Idle?
    ensures JointSound(ReadSection(j, p, c), p)
  {
    ContinueTogether(Side(j.net, p), Side(j.net, Other(p)), j.out);
    FailSound(j.net, p);
  }

  lemma AnswerSound(j: Joint, p: Perspective, c: Choice)
    requires JointSound(j, p) && AnswerNext(j, p)
    ensures JointSound(ReadSection(j, p, c), p)
  {
    var s, r := Side(j.net, p), Side(j.net, Other(p));
    AnswerIsLate(s, r);
    AnswerTogether(s, r, j.out);
    var out := Out.StepOf(j.out, Out.Read(ReplyOf(r.sent[s.read])));
    ApplySound(j.net, Event(p, Deliver(Choice([], [], !out.failed))));
  }

  lemma OtherSound(j: Joint, p: Perspective, c: Choice)
    requires JointSound(j, p) && j.out.reader.Idle? && !Side(j.net, p).failed && !AnswerNext(j, p)
    requires Side(j.net, p).read < |Side(j.net, Other(p)).sent|
    ensures JointSound(ReadSection(j, p, c), p)
  {
    OtherTogether(Side(j.net, p), Side(j.net, Other(p)), j.out, c);
    ApplySound(j.net, Event(p, Deliver(c)));
  }

  lemma ReaderSound(j: Joint, p: Perspective, c: Choice)
    requires JointSound(j, p)
    ensures JointSound(ReadSection(j, p, c), p)
  {
    var s, r := Side(j.net, p), Side(j.net, Other(p));
    if !j.out.reader.Idle? {
      ContinueSound(j, p, c);
    } else if !s.failed && s.read < |r.sent| {
      if IsAnswer(r.sent[s.read]) {
        AnswerSound(j, p, c);
      } else {
        OtherSound(j, p, c);
      }
    }
  }

  lemma ElsewhereSound(j: Joint, p: Perspective, e: Event)
    requires JointSound(j, p) && !(e.at == p && (e.step.Take? || e.step.Send? || e.step.Deliver?))
    ensures JointSound(j.(net := Apply(j.net, e)), p)
  {
    var s, r := Side(j.net, p), Side(j.net, Other(p));
    ApplySound(j.net, e);
    if e.at == p {
      OwnTogether(s, r, j.out, e.step);
    } else {
      PeerTogether(s, r, j.out, e.step);
    }
  }

  lemma AskSound(j: Joint, p: Perspective, k: Kind)
    requires JointSound(j, p) && Side(j.net, p).ready
    ensures JointSound(JointApply(j, p, Ask(k)), p)
  {
    AskTogether(Side(j.net, p), Side(j.net, Other(p)), j.out, k);
    ApplySound(j.net, Event(p, Take(k)));
  }

  /** A step at `p` whose effect on its session and on the application is known. */
  lemma OwnSound(j: Joint, p: Perspective, step: Step, o: Out.Out)
    requires JointSound(j, p)
    requires Together(StepAt(Side(j.net, p), Side(j.net, Other(p)).sent, step), Side(j.net, Other(p)), o)
    ensures JointSound(Joint(Apply(j.net, Event(p, step)), o), p)
  {
    ApplySound(j.net, Event(p, step));
  }

  lemma PutSound(j: Joint, p: Perspective, id: nat, ok: bool)
    requires JointSound(j, p) && Side(j.net, p).ready && id in Side(j.net, p).unsent
    ensures JointSound(JointApply(j, p, Put(id, ok)), p)
  {
    PutTogether(Side(j.net, p), Side(j.net, Other(p)), j.out, id, ok);
    OwnSound(j, p, Send(id, ok), Out.StepOf(j.out, Out.Enter(id)));
  }

  lemma CallerSound(j: Joint, p: Perspective, step: Out.Step)
    requires JointSound(j, p) && (step.Cancelled? || step.Obtain? || step.Forget?)
    ensures JointSound(j.(out := Out.StepOf(j.out, step)), p)
  {
    CallerTogether(Side(j.net, p), Side(j.net, Other(p)), j.out, step);
  }

  lemma JointStepSound(j: Joint, p: Perspective, step: JointStep)
    requires JointSound(j, p)
    ensures JointSound(JointApply(j, p, step), p)
  {
    var s := Side(j.net, p);
    match step
    case Elsewhere(e) =>
      if !(e.at == p && (e.step.Take? || e.step.Send? || e.step.Deliver?)) {
        ElsewhereSound(j, p, e);
      }
    case Ask(k) =>
      if s.ready {
        AskSound(j, p, k);
      }
    case Put(id, ok) =>
      if s.ready && id in s.unsent {
        PutSound(j, p, id, ok);
      }
    case Caller(o) =>
      if o.Cancelled? || o.Obtain? || o.Forget? {
        CallerSound(j, p, o);
      }
    case Reader(c) => ReaderSound(j, p, c);
  }

  lemma {:induction false} JointRunSound(j: Joint, p: Perspective, steps: seq<JointStep>)
    requires JointSound(j, p)
    ensures JointSound(JointRun(j, p, steps), p)
    decreases |steps|
  {
    if steps != [] {
      JointStepSound(j, p, steps[0]);
      JointRunSound(JointApply(j, p, steps[0]), p, steps[1..]);
    }
  }

  lemma JointInitSound(clientMax: nat, serverMax: nat, p: Perspective)
    ensures JointSound(JointInit(clientMax, serverMax, p), p)
  {
    InitSound(clientMax, serverMax);
    var n := Init(clientMax, serverMax);
    StartTogether(Side(n, p), Side(n, Other(p)), Out.Start(Generator(if p.Client? then 0 else 1, 0, 2)));
  }

  lemma StartTogether(s: SessionState, r: SessionState, o: Out.Out)
    requires o == Out.Start(s.ids) && s.ids.interval == 2 && s.unsent == map[] && s.read == 0
    requires |s.sent| <= 1 && |r.sent| <= 1
    requires forall i :: 0 <= i < |s.sent| ==> !s.sent[i].Request?
    requires forall i :: 0 <= i < |r.sent| ==> !IsAnswer(r.sent[i])
    ensures Together(s, r, o)
  {}

  // ----- Main results -----

  lemma AnswerSection(j: Joint, p: Perspective, c: Choice)
    requires AnswerNext(j, p)
    ensures var s, inbox := Side(j.net, p), Side(j.net, Other(p)).sent;
      var out := Out.StepOf(j.out, Out.Read(ReplyOf(inbox[s.read])));
      Side(JointApply(j, p, Reader(c)).net, p) == StepAt(s, inbox, Deliver(Choice([], [], !out.failed)))
  {}

  lemma AnswerFails(s: SessionState, r: SessionState, o: Out.Out)
    requires Together(s, r, o) && Serving(r, s.sent) && s.ready && !s.failed && o.reader.Idle?
    requires s.read < |r.sent| && IsAnswer(r.sent[s.read])
    ensures var m := r.sent[s.read];
      var out := Out.StepOf(o, Out.Read(ReplyOf(m)));
      && m.id in o.calls && o.calls[m.id].kind == m.kind
      && (StepAt(s, r.sent, Deliver(Choice([], [], !out.failed))).failed <==> o.calls[m.id].stage.GaveUp?)
  {
    var out := Out.StepOf(o, Out.Read(ReplyOf(r.sent[s.read])));
    NextAnswer(s, r, o);
    AnswerEffect(o, r.sent[s.read]);
    AnswerDelivered(s, r.sent, !out.failed);
  }

  lemma AnswerEnds(j: Joint, p: Perspective, c: Choice)
    requires JointSound(j, p) && AnswerNext(j, p)
    ensures var m := Side(j.net, Other(p)).sent[Side(j.net, p).read];
      && m.id in j.out.calls && j.out.calls[m.id].kind == m.kind
      && (Side(JointApply(j, p, Reader(c)).net, p).failed <==> j.out.calls[m.id].stage.GaveUp?)
  {
    var s, r := Side(j.net, p), Side(j.net, Other(p));
    AnswerIsLate(s, r);
    AnswerFails(s, r, j.out);
    AnswerSection(j, p, c);
  }

  /** In every joint run, an OK or ERROR from a peer that runs this library finds the call it answers, of its own
      kind, and ends the reader exactly when that call had given up waiting. */
  lemma {:induction false} AnswerEndsReaderIff(clientMax: nat, serverMax: nat, p: Perspective, steps: seq<JointStep>,
                                               c: Choice)
    requires AnswerNext(JointRun(JointInit(clientMax, serverMax, p), p, steps), p)
    ensures var j := JointRun(JointInit(clientMax, serverMax, p), p, steps);
      var m := Side(j.net, Other(p)).sent[Side(j.net, p).read];
      && m.id in j.out.calls && j.out.calls[m.id].kind == m.kind
      && (Side(JointApply(j, p, Reader(c)).net, p).failed <==> j.out.calls[m.id].stage.GaveUp?)
  {
    JointInitSound(clientMax, serverMax, p);
    JointRunSound(JointInit(clientMax, serverMax, p), p, steps);
    AnswerEnds(JointRun(JointInit(clientMax, serverMax, p), p, steps), p, c);
  }

  lemma AliasEffect(o: Out.Out)
    requires Sane(o) && o.reader.Confirmed? && !o.failed
    ensures Out.StepOf(o, Out.Continue).failed <==> o.table.aliases != map[]
  {}

  lemma AliasEnds(j: Joint, p: Perspective, c: Choice)
    requires JointSound(j, p) && j.out.reader.Confirmed? && !Side(j.net, p).failed
    ensures Side(JointApply(j, p, Reader(c)).net, p).failed <==> j.out.table.aliases != map[]
  {
    AliasEffect(j.out);
  }

  /** And the second locked section of SUBSCRIBE_OK, which binds its alias, ends the reader exactly when another
      SUBSCRIBE_OK came before. */
  lemma {:induction false} AliasEndsReaderIff(clientMax: nat, serverMax: nat, p: Perspective, steps: seq<JointStep>,
                                              c: Choice)
    requires var j := JointRun(JointInit(clientMax, serverMax, p), p, steps);
      j.out.reader.Confirmed? && !Side(j.net, p).failed
    ensures var j := JointRun(JointInit(clientMax, serverMax, p), p, steps);
      Side(JointApply(j, p, Reader(c)).net, p).failed <==> j.out.table.aliases != map[]
  {
    JointInitSound(clientMax, serverMax, p);
    JointRunSound(JointInit(clientMax, serverMax, p), p, steps);
    AliasEnds(JointRun(JointInit(clientMax, serverMax, p), p, steps), p, c);
  }

  /** So between two endpoints of this library, in every run, at most one Subscribe of a session ever returns. */
  lemma {:induction false} OneSubscriptionPerSession(clientMax: nat, serverMax: nat, p: Perspective,
                                                     steps: seq<JointStep>)
    ensures var o := JointRun(JointInit(clientMax, serverMax, p), p, steps).out;
      forall a, b :: Out.Granted(o, a) && Out.Granted(o, b) ==> a == b
  {
    JointInitSound(clientMax, serverMax, p);
    JointRunSound(JointInit(clientMax, serverMax, p), p, steps);
  }
}
