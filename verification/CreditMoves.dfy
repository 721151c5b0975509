/** Every step of an endpoint, seen from outside, is one of a few credit moves. */
module CreditMoves {
  import opened RequestIds
  import opened SessionTypes
  import opened LocalTracks
  import opened SessionModel
  import opened Network

  /** Messages that neither grant credit nor use an ID. */
  predicate Plain(m: Msg) {
    !IsGrant(m) && !m.Request?
  }

  ghost predicate AllPlain(out: seq<Msg>) {
    forall i :: 0 <= i < |out| ==> Plain(out[i])
  }

  predicate IsTrackRequest(m: Msg) {
    m.Request? && IsTrack(m.kind)
  }

  /** Whether addLocalTrack gets past the credit check. */
  predicate Admits(s: SessionState, m: Msg) {
    s.ready && IsTrackRequest(m) && m.namespaceOk && m.id < s.localMax
  }

  predicate Greeting(s: SessionState, m: Msg) {
    !s.ready && if s.perspective.Server? then m.ClientSetup? else m.ServerSetup?
  }

  predicate Raises(s: SessionState, m: Msg) {
    s.ready && m.MaxRequestId? && s.ids.max <= m.max
  }

  /** The fault, if any, that reading `m` is. */
  function FaultsOf(s: SessionState, m: Msg): set<Fault> {
    if !s.ready then
      if Greeting(s, m) then (if m.max < s.ids.max then {MaxDecreased} else {})
      else if m.ClientSetup? || m.ServerSetup? then {WrongSetup}
      else {EarlyMessage}
    else if m.ClientSetup? || m.ServerSetup? then {WrongSetup}
    else if m.MaxRequestId? then (if m.max < s.ids.max then {MaxDecreased} else {})
    else if IsTrackRequest(m) && m.namespaceOk then
      if m.id >= s.localMax then {MaxViolated} else if s.tracks.Live(m.id) then {DuplicateId} else {}
    else {}
  }

  datatype Move =
    | Talk(out: seq<Msg>)                 // plain messages written
    | Issue(kind: Kind)                   // an ID taken
    | Emit(id: nat, namespaceOk: bool)    // a request written
    | Drop(id: nat)                       // a request abandoned
    | Read(out: seq<Msg>)                 // a message without credit read, plain replies written
    | Admit(id: nat, out: seq<Msg>)       // a track request admitted, credit possibly doubled
    | Raise(max: nat)                     // a larger limit read
    | Greet(max: nat)                     // the setup message read

  /** `t` is what the move makes of `s`, as far as credit is concerned. */
  ghost predicate Moves(s: SessionState, inbox: seq<Msg>, m: Move, t: SessionState) {
    && t.perspective == s.perspective && t.initialMax == s.initialMax
    && t.read == s.read + (if m.Talk? || m.Issue? || m.Emit? || m.Drop? then 0 else 1)
    && (t.read > s.read ==> !s.failed && s.read < |inbox|)
    && (t.read == s.read ==> t.failed == s.failed)
    && t.faults == s.faults + (if t.read > s.read then FaultsOf(s, inbox[s.read]) else {})
    && (!s.ready ==> t.tracks == s.tracks)
    && (t.read > s.read && s.ready && IsTrackRequest(inbox[s.read]) && !inbox[s.read].namespaceOk ==> t.failed)
    && t.ids == (match m
         case Issue(_) => s.ids.(id := s.ids.id + s.ids.interval)
         case Raise(max) => s.ids.(max := max)
         case Greet(max) => s.ids.(max := max)
         case _ => s.ids)
    && t.unsent == (match m
         case Issue(k) => s.unsent[s.ids.id := k]
         case Emit(id, _) => s.unsent - {id}
         case Drop(id) => s.unsent - {id}
         case _ => s.unsent)
    && t.localMax == (if m.Admit? then Grow(s.localMax, m.id) else s.localMax)
    && t.ready == (s.ready || m.Greet?)
    && match m
       case Talk(out) => AllPlain(out) && t.sent == s.sent + out && (out != [] ==> s.ready || s.tracks.all != map[])
       case Issue(_) => s.ids.id < s.ids.max && t.sent == s.sent && s.ready
       case Emit(id, ok) => id in s.unsent && t.sent == s.sent + [Request(s.unsent[id], id, ok)] && s.ready
       case Drop(_) => t.sent == s.sent
       case Read(out) =>
         && AllPlain(out) && t.sent == s.sent + out && (out != [] ==> s.ready)
         && !Admits(s, inbox[s.read]) && !Raises(s, inbox[s.read]) && !Greeting(s, inbox[s.read])
       case Admit(id, out) =>
         && AllPlain(out) && t.sent == s.sent + GrowMessages(s.localMax, id) + out
         && Admits(s, inbox[s.read]) && id == inbox[s.read].id
       case Raise(max) =>
         && Raises(s, inbox[s.read]) && max == inbox[s.read].max
         && t.sent == s.sent && t.failed == s.failed
       case Greet(max) =>
         && Greeting(s, inbox[s.read]) && max == inbox[s.read].max && t.failed == s.failed
         && t.sent == s.sent + if s.perspective.Server? then [ServerSetup(SERVER_SETUP_MAX)] else []
  }

  /** Moves of the application. */
  predicate Calls(m: Move) {
    m.Issue? || m.Emit? || m.Drop?
  }

  /** Each comes from its own step. */
  predicate Calling(m: Move, step: Step) {
    && (m.Issue? ==> step == Take(m.kind)) && (m.Emit? ==> step == Send(m.id, m.namespaceOk))
    && (m.Drop? ==> step.Abandon?)
  }

  /** Before the handshake nothing has happened yet. */
  ghost predicate Fresh(s: SessionState) {
    && s.read == 0 && s.localMax == s.initialMax && s.ids.max == 0 && s.unsent == map[] && s.tracks.all == map[]
    && s.sent == (if s.perspective.Client? then [ClientSetup(s.initialMax)] else [])
  }

  lemma TrackMove(s: SessionState, m: Msg, c: Choice) returns (out: seq<Msg>)
    requires s.ready && IsTrackRequest(m)
    ensures AllPlain(out)
    ensures var t := Receive(s, m, c);
      && t == s.(localMax := t.localMax, sent := t.sent, tracks := t.tracks, failed := t.failed, faults := t.faults)
      && t.localMax == (if Admits(s, m) then Grow(s.localMax, m.id) else s.localMax)
      && t.sent == s.sent + (if Admits(s, m) then GrowMessages(s.localMax, m.id) else []) + out
      && t.faults == s.faults + FaultsOf(s, m)
      && (!m.namespaceOk ==> t.failed)
  {
    if !m.namespaceOk {
      out := [];
    } else if m.id >= s.localMax || s.tracks.Live(m.id) {
      out := if m.kind.Subscribe? || m.id in s.tracks.pending then [Error(m.kind, m.id)] else [];
    } else {
      out := Serve(Add(s.tracks, m.id, m.kind), m.id, c.script).1;
    }
  }

  lemma OtherMove(s: SessionState, m: Msg, c: Choice) returns (out: seq<Msg>)
    requires s.ready && !IsTrackRequest(m) && !m.MaxRequestId?
    ensures AllPlain(out)
    ensures var t := Receive(s, m, c);
      t == s.(sent := s.sent + out, tracks := t.tracks, failed := t.failed, faults := s.faults + FaultsOf(s, m))
  {
    out := if m.Request? && !(m.kind.Announce? && !m.namespaceOk) then Replies(m.kind, m.id, c.replies) else [];
  }

  lemma GreetMove(s: SessionState, inbox: seq<Msg>, c: Choice) returns (m: Move)
    requires !s.ready && Fresh(s) && !s.failed && s.read < |inbox|
    ensures Moves(s, inbox, m, Receive(s.(read := s.read + 1), inbox[s.read], c)) && !Calls(m)
  {
    m := if Greeting(s, inbox[s.read]) then Greet(inbox[s.read].max) else Read([]);
  }

  lemma LimitMove(s: SessionState, inbox: seq<Msg>, c: Choice) returns (m: Move)
    requires s.ready && !s.failed && s.read < |inbox| && inbox[s.read].MaxRequestId?
    ensures Moves(s, inbox, m, Receive(s.(read := s.read + 1), inbox[s.read], c)) && !Calls(m)
  {
    m := if s.ids.max <= inbox[s.read].max then Raise(inbox[s.read].max) else Read([]);
  }

  lemma ReceiveMove(s: SessionState, inbox: seq<Msg>, c: Choice) returns (m: Move)
    requires !s.ready ==> Fresh(s)
    requires !s.failed && s.read < |inbox|
    ensures Moves(s, inbox, m, Receive(s.(read := s.read + 1), inbox[s.read], c)) && !Calls(m)
  {
    var s0, msg := s.(read := s.read + 1), inbox[s.read];
    if !s.ready {
      m := GreetMove(s, inbox, c);
    } else if IsTrackRequest(msg) {
      var out := TrackMove(s0, msg, c);
      m := if Admits(s, msg) then Admit(msg.id, out) else Read(out);
    } else if !msg.MaxRequestId? {
      var out := OtherMove(s0, msg, c);
      m := Read(out);
    } else {
      m := LimitMove(s, inbox, c);
    }
  }

  lemma DeliverMove(s: SessionState, inbox: seq<Msg>, c: Choice) returns (m: Move)
    requires !s.ready ==> Fresh(s)
    ensures Moves(s, inbox, m, StepAt(s, inbox, Deliver(c))) && !Calls(m)
  {
    DeliverIs(s, inbox, c);
    if !s.failed && s.read < |inbox| {
      m := ReceiveMove(s, inbox, c);
    } else {
      m := StandStill(s, inbox);
    }
  }

  lemma StandStill(s: SessionState, inbox: seq<Msg>) returns (m: Move)
    ensures Moves(s, inbox, m, s) && !Calls(m)
  {
    m := Talk([]);
  }

  lemma CallMove(s: SessionState, inbox: seq<Msg>, step: Step) returns (m: Move)
    requires !s.ready ==> Fresh(s)
    requires !step.Deliver?
    ensures Moves(s, inbox, m, StepAt(s, inbox, step)) && Calling(m, step)
  {
    m := Talk([]);
    match step
    case Take(k) =>
      if s.ready {
        m := if s.ids.id < s.ids.max then Issue(k) else Talk([RequestsBlocked(s.ids.max)]);
      }
    case Send(id, ok) =>
      if s.ready && id in s.unsent {
        m := Emit(id, ok);
      }
    case Abandon(id) =>
      m := Drop(id);
    case Tell(msg) =>
      if s.ready && (msg.SubscribeUpdate? || msg.Unsubscribe? || msg.FetchCancel?) {
        m := Talk([msg]);
      }
    case Late(id, a) =>
      if id in s.tracks.all {
        m := Talk(Act(s.tracks, id, a).1);
      }
  }

  /** Every step of an endpoint is one of the moves. */
  lemma StepMove(s: SessionState, inbox: seq<Msg>, step: Step) returns (m: Move)
    requires !s.ready ==> Fresh(s)
    ensures Moves(s, inbox, m, StepAt(s, inbox, step)) && Calling(m, step)
  {
    if step.Deliver? {
      m := DeliverMove(s, inbox, step.choice);
    } else {
      m := CallMove(s, inbox, step);
    }
  }
}
