/** SUBSCRIBE_DONE, exactly: which steps of a run write it, and that its count is the number of streams the track's
    writer has opened, used by the handler or long after. */
module ExactDone {
  import opened RequestIds
  import opened SessionTypes
  import opened LocalTracks
  import opened SessionModel
  import opened Network
  import opened CreditMoves
  import opened CreditSafety
  import opened Answers
  import opened Protocol
  import opened ExactAnswers

  // ----- SUBSCRIBE_DONE in a log -----

  /** The SUBSCRIBE_DONE messages for `id`, in order. */
  function DonesTo(log: seq<Msg>, id: nat): seq<Msg> {
    if log == [] then []
    else (if log[0].SubscribeDone? && log[0].id == id then [log[0]] else []) + DonesTo(log[1..], id)
  }

  lemma {:induction false} DonesAppend(a: seq<Msg>, b: seq<Msg>, id: nat)
    ensures DonesTo(a + b, id) == DonesTo(a, id) + DonesTo(b, id)
  {
    if a == [] {
      assert a + b == b;
    } else {
      assert (a + b)[1..] == a[1..] + b;
      DonesAppend(a[1..], b, id);
    }
  }

  lemma {:induction false} NoDones(log: seq<Msg>, id: nat)
    requires forall i :: 0 <= i < |log| && log[i].SubscribeDone? ==> log[i].id != id
    ensures DonesTo(log, id) == []
  {
    if log != [] {
      NoDones(log[1..], id);
    }
  }

  // ----- One use of a writer -----

  /** The use opens a stream: the track is a subscription whose context has not ended. */
  predicate Opens(t: Tracks, id: nat, a: Action) {
    && id in t.all && t.all[id].kind == Subscribe && t.all[id].cause == None
    && a.OpenSubgroup? && a.streamOpens
  }

  /** The use closes a subscription that is still pending or open. */
  predicate Closes(t: Tracks, id: nat, a: Action) {
    && id in t.all && t.all[id].kind == Subscribe && a.CloseWithError?
    && (id in t.pending || id in t.open)
  }

  function StreamsOf(t: Tracks, id: nat): nat {
    if id in t.all then t.all[id].streams else 0
  }

  /** What one use does to the count of its own track, and to no other; and when it writes SUBSCRIBE_DONE. */
  lemma ActCounts(t: Tracks, id: nat, a: Action, other: nat)
    requires id in t.all
    ensures var (u, out) := Act(t, id, a);
      && StreamsOf(u, other) == StreamsOf(t, other) + (if other == id && Opens(t, id, a) then 1 else 0)
      && DonesTo(out, other) ==
         (if other == id && Closes(t, id, a) then [SubscribeDone(id, t.all[id].streams)] else [])
      && (Closes(t, id, a) ==> out == [SubscribeDone(id, t.all[id].streams)])
  {
    var out := Act(t, id, a).1;
    assert out != [] ==> out[1..] == [];
  }

  // ----- A handler's uses -----

  /** The streams a handler opens: until it closes the subscription, every one that the connection opens. */
  function OpenedBy(script: seq<Action>): nat {
    if script == [] || script[0].CloseWithError? then 0
    else (if script[0].OpenSubgroup? && script[0].streamOpens then 1 else 0) + OpenedBy(script[1..])
  }

  /** Whether a close in the script finds the subscription in the table: a rejection before any acceptance takes it
      out. */
  predicate ClosesLive(script: seq<Action>, accepted: bool) {
    script != [] &&
    (script[0].CloseWithError? ||
     (if script[0].Accept? then ClosesLive(script[1..], true)
      else if script[0].Reject? then accepted && ClosesLive(script[1..], accepted)
      else ClosesLive(script[1..], accepted)))
  }

  /** A new subscription: no cause yet, pending or, once accepted, open. */
  ghost predicate Young(t: Tracks, id: nat, accepted: bool) {
    && id in t.all && t.all[id].kind == Subscribe && t.all[id].cause == None
    && (if accepted then id in t.open && id !in t.pending else id in t.pending && id !in t.open)
  }

  /** A subscription that is closed, or has left the table: nothing more is written about its end. */
  ghost predicate Gone(t: Tracks, id: nat) {
    id in t.all && !t.Live(id)
  }

  lemma {:induction false} GoneSilent(t: Tracks, id: nat, script: seq<Action>)
    requires Gone(t, id)
    ensures var (u, out) := Handle(t, id, script); Gone(u, id) && DonesTo(out, id) == []
    decreases |script|
  {
    if script != [] {
      var (t1, out) := Act(t, id, script[0]);
      ActCounts(t, id, script[0], id);
      GoneSilent(t1, id, script[1..]);
      DonesAppend(out, Handle(t1, id, script[1..]).1, id);
    }
  }

  lemma {:induction false} EndedCounts(t: Tracks, id: nat, script: seq<Action>)
    requires id in t.all && t.all[id].cause != None
    ensures StreamsOf(Handle(t, id, script).0, id) == StreamsOf(t, id)
    decreases |script|
  {
    if script != [] {
      ActCounts(t, id, script[0], id);
      ActPersists(t, id, script[0]);
      EndedCounts(Act(t, id, script[0]).0, id, script[1..]);
    }
  }

  /** Once rejected, a new subscription can still open streams. */
  lemma {:induction false} YoungCounts(t: Tracks, id: nat, script: seq<Action>)
    requires id in t.all && t.all[id].kind == Subscribe && t.all[id].cause == None
    ensures StreamsOf(Handle(t, id, script).0, id) == StreamsOf(t, id) + OpenedBy(script)
    decreases |script|
  {
    if script != [] {
      var t1 := Act(t, id, script[0]).0;
      ActCounts(t, id, script[0], id);
      if script[0].CloseWithError? {
        EndedCounts(t1, id, script[1..]);
      } else {
        YoungCounts(t1, id, script[1..]);
      }
    }
  }

  lemma CloseYoung(t: Tracks, id: nat, accepted: bool)
    requires Young(t, id, accepted)
    ensures var (u, out) := Act(t, id, CloseWithError); Gone(u, id) && out == [SubscribeDone(id, t.all[id].streams)]
  {}

  lemma RejectYoung(t: Tracks, id: nat)
    requires Young(t, id, false)
    ensures Gone(Act(t, id, Reject).0, id)
  {}

  lemma StaysYoung(t: Tracks, id: nat, a: Action, accepted: bool)
    requires Young(t, id, accepted) && !a.CloseWithError? && (a.Reject? ==> accepted)
    ensures Young(Act(t, id, a).0, id, accepted || a.Accept?)
  {}

  /** The first use, then the rest. */
  lemma HandleCons(t: Tracks, id: nat, script: seq<Action>)
    requires id in t.all && script != []
    ensures var (t1, out) := Act(t, id, script[0]);
      var (u, rest) := Handle(t1, id, script[1..]);
      && Handle(t, id, script).0 == u
      && DonesTo(Handle(t, id, script).1, id) == DonesTo(out, id) + DonesTo(rest, id)
  {
    var (t1, out) := Act(t, id, script[0]);
    DonesAppend(out, Handle(t1, id, script[1..]).1, id);
  }

  lemma YoungCloses(t: Tracks, id: nat, script: seq<Action>, accepted: bool)
    requires Young(t, id, accepted) && script != [] && script[0].CloseWithError?
    ensures var (u, out) := Handle(t, id, script);
      DonesTo(out, id) == [SubscribeDone(id, t.all[id].streams)] && Gone(u, id)
  {
    HandleCons(t, id, script);
    ActCounts(t, id, script[0], id);
    CloseYoung(t, id, accepted);
    GoneSilent(Act(t, id, script[0]).0, id, script[1..]);
  }

  lemma YoungRejected(t: Tracks, id: nat, script: seq<Action>)
    requires Young(t, id, false) && script != [] && script[0].Reject?
    ensures var (u, out) := Handle(t, id, script); DonesTo(out, id) == [] && id in u.all
  {
    HandleCons(t, id, script);
    ActCounts(t, id, script[0], id);
    RejectYoung(t, id);
    GoneSilent(Act(t, id, script[0]).0, id, script[1..]);
  }

  lemma {:induction false} YoungDones(t: Tracks, id: nat, script: seq<Action>, accepted: bool)
    requires Young(t, id, accepted)
    ensures var (u, out) := Handle(t, id, script);
      && DonesTo(out, id) ==
         (if ClosesLive(script, accepted) then [SubscribeDone(id, t.all[id].streams + OpenedBy(script))] else [])
      && (ClosesLive(script, accepted) ==> Gone(u, id))
      && id in u.all
    decreases |script|
  {
    if script != [] {
      var a := script[0];
      if a.CloseWithError? {
        YoungCloses(t, id, script, accepted);
      } else if a.Reject? && !accepted {
        YoungRejected(t, id, script);
      } else {
        HandleCons(t, id, script);
        ActCounts(t, id, a, id);
        StaysYoung(t, id, a, accepted);
        YoungDones(Act(t, id, a).0, id, script[1..], accepted || a.Accept?);
      }
    }
  }

  /** Serving a new subscription: one SUBSCRIBE_DONE if its handler closes it in time, with the streams opened so
      far, and none otherwise. */
  lemma {:induction false} ServeDones(t: Tracks, id: nat, script: seq<Action>)
    requires Young(t, id, false) && t.all[id].streams == 0
    ensures var (u, out, _) := Serve(t, id, script);
      && DonesTo(out, id) == (if ClosesLive(script, false) then [SubscribeDone(id, OpenedBy(script))] else [])
      && StreamsOf(u, id) == OpenedBy(script)
  {
    var (t1, out) := Handle(t, id, script);
    YoungDones(t, id, script, false);
    YoungCounts(t, id, script);
    if !Handled(script) {
      ActCounts(t1, id, Reject, id);
      DonesAppend(out, Act(t1, id, Reject).1, id);
    }
  }

  // ----- A fetch, and the tracks of other requests -----

  lemma {:induction false} FetchCounts(t: Tracks, id: nat, script: seq<Action>)
    requires id in t.all && t.all[id].kind != Subscribe
    ensures var (u, out) := Handle(t, id, script);
      id in u.all && u.all[id].kind == t.all[id].kind && StreamsOf(u, id) == StreamsOf(t, id) && DonesTo(out, id) == []
    decreases |script|
  {
    if script != [] {
      var (t1, out) := Act(t, id, script[0]);
      ActCounts(t, id, script[0], id);
      FetchCounts(t1, id, script[1..]);
      DonesAppend(out, Handle(t1, id, script[1..]).1, id);
    }
  }

  lemma ServeFetch(t: Tracks, id: nat, script: seq<Action>)
    requires id in t.all && t.all[id].kind != Subscribe
    ensures var (u, out, _) := Serve(t, id, script); StreamsOf(u, id) == StreamsOf(t, id) && DonesTo(out, id) == []
  {
    var (t1, out) := Handle(t, id, script);
    FetchCounts(t, id, script);
    if !Handled(script) {
      ActCounts(t1, id, Reject, id);
      DonesAppend(out, Act(t1, id, Reject).1, id);
    }
  }

  lemma {:induction false} HandleOther(t: Tracks, id: nat, script: seq<Action>, other: nat)
    requires id in t.all && other != id
    ensures StreamsOf(Handle(t, id, script).0, other) == StreamsOf(t, other)
    decreases |script|
  {
    if script != [] {
      ActCounts(t, id, script[0], other);
      HandleOther(Act(t, id, script[0]).0, id, script[1..], other);
    }
  }

  lemma ServeOther(t: Tracks, id: nat, script: seq<Action>, other: nat)
    requires id in t.all && other != id
    ensures var (u, out, _) := Serve(t, id, script);
      StreamsOf(u, other) == StreamsOf(t, other) && DonesTo(out, other) == []
  {
    HandleOther(t, id, script, other);
    ActCounts(Handle(t, id, script).0, id, Reject, other);
    NoDones(Serve(t, id, script).1, other);
  }

  // ----- One step of an endpoint -----

  /** The step is the reading of a SUBSCRIBE with this ID that is let in. */
  predicate Subscribes(s: SessionState, inbox: seq<Msg>, step: Step, id: nat) {
    && step.Deliver? && s.ready && !s.failed && s.read < |inbox|
    && var m := inbox[s.read];
       m.Request? && m.kind == Subscribe && m.id == id && m.namespaceOk && id < s.localMax
  }

  /** How many streams the step opens for `id`. */
  function OpenedAt(s: SessionState, inbox: seq<Msg>, step: Step, id: nat): nat {
    if Subscribes(s, inbox, step, id) then OpenedBy(step.choice.script)
    else if step.Late? && step.id == id && Opens(s.tracks, id, step.action) then 1
    else 0
  }

  /** The SUBSCRIBE_DONE messages the step writes for `id`. */
  function DoneAt(s: SessionState, inbox: seq<Msg>, step: Step, id: nat): seq<Msg> {
    if Subscribes(s, inbox, step, id) then
      (if ClosesLive(step.choice.script, false) then [SubscribeDone(id, OpenedBy(step.choice.script))] else [])
    else if step.Late? && step.id == id && Closes(s.tracks, id, step.action) then
      [SubscribeDone(id, StreamsOf(s.tracks, id))]
    else []
  }

  /** What a step adds to the count of `id` and to its SUBSCRIBE_DONE messages. */
  ghost predicate Adds(s: SessionState, t: SessionState, id: nat, streams: nat, dones: seq<Msg>) {
    StreamsOf(t.tracks, id) == StreamsOf(s.tracks, id) + streams && DonesTo(t.sent, id) == DonesTo(s.sent, id) + dones
  }

  lemma LateDone(s: SessionState, late: nat, a: Action, id: nat)
    ensures Adds(s, UseWriter(s, late, a), id,
                 if late == id && Opens(s.tracks, id, a) then 1 else 0,
                 if late == id && Closes(s.tracks, id, a) then [SubscribeDone(id, StreamsOf(s.tracks, id))] else [])
  {
    if late in s.tracks.all {
      ActCounts(s.tracks, late, a, id);
      DonesAppend(s.sent, Act(s.tracks, late, a).1, id);
    }
  }

  lemma QuietAdds(s: SessionState, t: SessionState, out: seq<Msg>, id: nat)
    requires t.sent == s.sent + out && StreamsOf(t.tracks, id) == StreamsOf(s.tracks, id)
    requires forall i :: 0 <= i < |out| && out[i].SubscribeDone? ==> out[i].id != id
    ensures Adds(s, t, id, 0, [])
  {
    DonesAppend(s.sent, out, id);
    NoDones(out, id);
  }

  lemma AdmittedAdds(s: SessionState, k: Kind, id: nat, script: seq<Action>, other: nat)
    requires IsTrack(k) && id < s.localMax && !s.tracks.Live(id) && id !in s.tracks.all
    ensures Adds(s, OnTrackRequest(s, k, id, true, script), other,
                 if other == id && k.Subscribe? then OpenedBy(script) else 0,
                 if other == id && k.Subscribe? && ClosesLive(script, false)
                 then [SubscribeDone(id, OpenedBy(script))] else [])
  {
    var t, grow := Add(s.tracks, id, k), GrowMessages(s.localMax, id);
    var out := Serve(t, id, script).1;
    AdmittedSent(s, k, id, script);
    AdmittedTracks(s, k, id, script);
    DonesAppend(s.sent, grow, other);
    NoDones(grow, other);
    DonesAppend(s.sent + grow, out, other);
    if other != id {
      ServeOther(t, id, script, other);
    } else if k.Subscribe? {
      ServeDones(t, id, script);
    } else {
      ServeFetch(t, id, script);
    }
  }

  lemma RefusedAdds(s: SessionState, k: Kind, id: nat, namespaceOk: bool, script: seq<Action>, other: nat)
    requires s.tracks.pending == {} && !(namespaceOk && id < s.localMax)
    ensures Adds(s, OnTrackRequest(s, k, id, namespaceOk, script), other, 0, [])
  {
    var out := if namespaceOk && k.Subscribe? then [Error(k, id)] else [];
    RefusedSent(s, k, id, namespaceOk, script);
    RefusedTracks(s, k, id, namespaceOk, script);
    QuietAdds(s, OnTrackRequest(s, k, id, namespaceOk, script), out, other);
  }

  lemma CancelAdds(s: SessionState, id: nat, drop: bool, other: nat)
    ensures Adds(s, OnCancel(s, id, drop), other, 0, [])
  {
    assert s.sent + [] == s.sent;
    QuietAdds(s, OnCancel(s, id, drop), [], other);
  }

  lemma TalkAdds(s: SessionState, m: Msg, c: Choice, id: nat)
    requires !(s.ready && (IsTrackRequest(m) || m.Unsubscribe? || m.FetchCancel?))
    ensures Adds(s, Receive(s, m, c), id, 0, [])
  {
    var t := Receive(s, m, c);
    TalkServing(s, m, c);
    assert t.sent == s.sent + t.sent[|s.sent|..];
    QuietAdds(s, t, t.sent[|s.sent|..], id);
  }

  lemma CancelReceived(s: SessionState, m: Msg, c: Choice)
    requires s.ready && (m.Unsubscribe? || m.FetchCancel?)
    ensures Receive(s, m, c) == OnCancel(s, m.id, m.FetchCancel?)
  {}

  lemma RequestReceived(s: SessionState, m: Msg, c: Choice)
    requires s.ready && IsTrackRequest(m)
    ensures Receive(s, m, c) == OnTrackRequest(s, m.kind, m.id, m.namespaceOk, c.script)
  {}

  lemma ReadAdds(s: SessionState, peer: SessionState, c: Choice, id: nat)
    requires Serving(s, peer.sent) && IdsUnique(peer) && !s.failed && s.read < |peer.sent|
    ensures var t := Receive(s.(read := s.read + 1), peer.sent[s.read], c);
      Adds(s, t, id, OpenedAt(s, peer.sent, Deliver(c), id), DoneAt(s, peer.sent, Deliver(c), id))
  {
    var s0, m := s.(read := s.read + 1), peer.sent[s.read];
    if s.ready && IsTrackRequest(m) {
      NextIsNew(s, peer);
      RequestReceived(s0, m, c);
      if m.namespaceOk && m.id < s.localMax {
        AdmittedAdds(s0, m.kind, m.id, c.script, id);
      } else {
        RefusedAdds(s0, m.kind, m.id, m.namespaceOk, c.script, id);
      }
    } else if s.ready && (m.Unsubscribe? || m.FetchCancel?) {
      CancelReceived(s0, m, c);
      CancelAdds(s0, m.id, m.FetchCancel?, id);
    } else {
      TalkAdds(s0, m, c, id);
    }
  }

  lemma CallAdds(s: SessionState, inbox: seq<Msg>, step: Step, id: nat)
    requires !step.Deliver? && !step.Late?
    ensures Adds(s, StepAt(s, inbox, step), id, 0, [])
  {
    var t := StepAt(s, inbox, step);
    CallKeepsTracks(s, inbox, step);
    assert t.sent == s.sent + t.sent[|s.sent|..];
    QuietAdds(s, t, t.sent[|s.sent|..], id);
  }

  /** Every step: the streams counted and the SUBSCRIBE_DONE messages written are exactly those of the uses of the
      track's own writer. */
  lemma StepAdds(s: SessionState, peer: SessionState, step: Step, id: nat)
    requires Serving(s, peer.sent) && IdsUnique(peer)
    ensures Adds(s, StepAt(s, peer.sent, step), id, OpenedAt(s, peer.sent, step, id), DoneAt(s, peer.sent, step, id))
  {
    if step.Deliver? {
      DeliverIs(s, peer.sent, step.choice);
      if !s.failed && s.read < |peer.sent| {
        ReadAdds(s, peer, step.choice, id);
      }
    } else if step.Late? {
      LateDone(s, step.id, step.action, id);
    } else {
      CallAdds(s, peer.sent, step, id);
    }
  }

  // ----- Over whole runs -----

  /** The streams that uses of the writer of `id` at side `p` open in a run. */
  function Opened(n: Net, events: seq<Event>, p: Perspective, id: nat): nat
    decreases |events|
  {
    if events == [] then 0
    else
      var e := events[0];
      (if e.at == p then OpenedAt(Side(n, p), Side(n, Other(p)).sent, e.step, id) else 0) +
      Opened(Apply(n, e), events[1..], p, id)
  }

  lemma {:induction false} RunStreams(n: Net, events: seq<Event>, p: Perspective, id: nat)
    requires Sound(n)
    ensures StreamsOf(Side(Run(n, events), p).tracks, id) == StreamsOf(Side(n, p).tracks, id) + Opened(n, events, p, id)
    decreases |events|
  {
    if events != [] {
      var e := events[0];
      ApplySound(n, e);
      if e.at == p {
        StepAdds(Side(n, p), Side(n, Other(p)), e.step, id);
      }
      RunStreams(Apply(n, e), events[1..], p, id);
    }
  }

  /** In every run the count of a track is the number of streams its writer has opened. */
  lemma CountIsOpened(clientMax: nat, serverMax: nat, events: seq<Event>, p: Perspective, id: nat)
    ensures var n0 := Init(clientMax, serverMax);
      StreamsOf(Side(Run(n0, events), p).tracks, id) == Opened(n0, events, p, id)
  {
    InitSound(clientMax, serverMax);
    RunStreams(Init(clientMax, serverMax), events, p, id);
  }

  /** The SUBSCRIBE_DONE messages for `id` that closes of a subscription in the table write in a run. */
  function ClosedIn(n: Net, events: seq<Event>, p: Perspective, id: nat): seq<Msg>
    decreases |events|
  {
    if events == [] then []
    else
      var e := events[0];
      (if e.at == p then DoneAt(Side(n, p), Side(n, Other(p)).sent, e.step, id) else []) +
      ClosedIn(Apply(n, e), events[1..], p, id)
  }

  lemma {:induction false} RunDones(n: Net, events: seq<Event>, p: Perspective, id: nat)
    requires Sound(n)
    ensures DonesTo(Side(Run(n, events), p).sent, id) == DonesTo(Side(n, p).sent, id) + ClosedIn(n, events, p, id)
    decreases |events|
  {
    var was := DonesTo(Side(n, p).sent, id);
    if events == [] {
      assert was + [] == was;
    } else {
      var e := events[0];
      ApplySound(n, e);
      var now := if e.at == p then DoneAt(Side(n, p), Side(n, Other(p)).sent, e.step, id) else [];
      if e.at == p {
        StepAdds(Side(n, p), Side(n, Other(p)), e.step, id);
      } else {
        assert was + [] == was;
      }
      RunDones(Apply(n, e), events[1..], p, id);
      Regroup(was, now, ClosedIn(Apply(n, e), events[1..], p, id));
    }
  }

  lemma Regroup(a: seq<Msg>, b: seq<Msg>, c: seq<Msg>)
    ensures (a + b) + c == a + (b + c)
  {}

  /** No other event of any run writes a SUBSCRIBE_DONE, and no close that finds the subscription in the table goes
      without. */
  lemma DonesAreCloses(clientMax: nat, serverMax: nat, events: seq<Event>, p: Perspective, id: nat)
    ensures var n0 := Init(clientMax, serverMax);
      DonesTo(Side(Run(n0, events), p).sent, id) == ClosedIn(n0, events, p, id) && |ClosedIn(n0, events, p, id)| <= 1
  {
    var n0 := Init(clientMax, serverMax);
    InitSound(clientMax, serverMax);
    RunDones(n0, events, p, id);
    RunSound(n0, events);
    SoundSingle(Run(n0, events), p);
    NoDones(Side(n0, p).sent, id);
    AtMostOne(Side(Run(n0, events), p).sent, id);
  }

  lemma {:induction false} DonesIn(log: seq<Msg>, id: nat) returns (i: nat)
    requires DonesTo(log, id) != []
    ensures i < |log| && log[i].SubscribeDone? && log[i].id == id
  {
    if log[0].SubscribeDone? && log[0].id == id {
      i := 0;
    } else {
      i := DonesIn(log[1..], id);
      i := i + 1;
    }
  }

  lemma DoneIsClosed(s: SessionState, id: nat)
    requires Tidy(s.tracks, s.sent) && DonesTo(s.sent, id) != []
    ensures id in s.tracks.all && !s.tracks.Live(id)
  {
    var i := DonesIn(s.sent, id);
    assert Closed(s.tracks, s.sent[i].id, s.sent[i].streams);
  }

  /** While a track is in the table, or not yet there, no SUBSCRIBE_DONE has been written for it. */
  lemma NoneSoFar(s: SessionState, id: nat)
    requires Tidy(s.tracks, s.sent) && (s.tracks.Live(id) || id !in s.tracks.all)
    ensures DonesTo(s.sent, id) == []
  {
    if DonesTo(s.sent, id) != [] {
      DoneIsClosed(s, id);
    }
  }

  ghost predicate SingleDones(log: seq<Msg>) {
    forall i, j :: 0 <= i < j < |log| && log[i].SubscribeDone? && log[j].SubscribeDone? ==> log[i].id != log[j].id
  }

  lemma {:induction false} AtMostOne(log: seq<Msg>, id: nat)
    requires SingleDones(log)
    ensures |DonesTo(log, id)| <= 1
  {
    if log != [] {
      if log[0].SubscribeDone? && log[0].id == id {
        NoDones(log[1..], id);
      } else {
        AtMostOne(log[1..], id);
      }
    }
  }

  lemma GrownDones(a: seq<Msg>, b: seq<Msg>, id: nat)
    requires a <= b && SingleDones(b) && DonesTo(a, id) != []
    ensures DonesTo(b, id) == DonesTo(a, id)
  {
    AtMostOne(b, id);
    assert b == a + b[|a|..];
    DonesAppend(a, b[|a|..], id);
  }

  lemma SoundSingle(n: Net, p: Perspective)
    requires Sound(n)
    ensures SingleDones(Side(n, p).sent)
  {}

  lemma StepGrowsLog(s: SessionState, inbox: seq<Msg>, step: Step)
    requires !s.ready ==> Fresh(s)
    ensures s.sent <= StepAt(s, inbox, step).sent
  {
    var m := StepMove(s, inbox, step);
    MoveAppends(s, inbox, m, StepAt(s, inbox, step));
  }

  lemma ApplyGrows(n: Net, e: Event, p: Perspective)
    requires Sound(n)
    ensures Side(n, p).sent <= Side(Apply(n, e), p).sent
  {
    if e.at == p {
      StepGrowsLog(Side(n, p), Side(n, Other(p)).sent, e.step);
    }
  }

  lemma {:induction false} RunGrows(n: Net, events: seq<Event>, p: Perspective)
    requires Sound(n)
    ensures Side(n, p).sent <= Side(Run(n, events), p).sent
    decreases |events|
  {
    if events != [] {
      ApplySound(n, events[0]);
      ApplyGrows(n, events[0], p);
      RunGrows(Apply(n, events[0]), events[1..], p);
    }
  }

  /** The one SUBSCRIBE_DONE of a track is there for ever, and stays the only one. */
  lemma DoneIsFinal(n: Net, events: seq<Event>, p: Perspective, id: nat)
    requires Sound(n) && DonesTo(Side(n, p).sent, id) != []
    ensures DonesTo(Side(Run(n, events), p).sent, id) == DonesTo(Side(n, p).sent, id)
  {
    RunSound(n, events);
    RunGrows(n, events, p);
    SoundSingle(Run(n, events), p);
    GrownDones(Side(n, p).sent, Side(Run(n, events), p).sent, id);
  }

  lemma ApplyAdds(n: Net, p: Perspective, step: Step, id: nat)
    requires Sound(n)
    ensures var s, t := Side(n, p), Side(Apply(n, Event(p, step)), p);
      Adds(s, t, id, OpenedAt(s, Side(n, Other(p)).sent, step, id), DoneAt(s, Side(n, Other(p)).sent, step, id))
  {
    StepAdds(Side(n, p), Side(n, Other(p)), step, id);
  }

  lemma CloseLeaves(s: SessionState, inbox: seq<Msg>, id: nat)
    requires Closes(s.tracks, id, CloseWithError)
    ensures !StepAt(s, inbox, Late(id, CloseWithError)).tracks.Live(id)
  {}

  lemma CloseNow(n: Net, p: Perspective, id: nat)
    requires Sound(n) && Closes(Side(n, p).tracks, id, CloseWithError)
    ensures var closed := Apply(n, Event(p, Late(id, CloseWithError)));
      && Sound(closed) && !Side(closed, p).tracks.Live(id)
      && DonesTo(Side(closed, p).sent, id) == [SubscribeDone(id, StreamsOf(Side(n, p).tracks, id))]
  {
    var e := Event(p, Late(id, CloseWithError));
    NoneSoFar(Side(n, p), id);
    ApplyAdds(n, p, e.step, id);
    ApplySound(n, e);
    CloseLeaves(Side(n, p), Side(n, Other(p)).sent, id);
  }

  /** A subscription that its writer closes, long after its handler returned, while it is in the table: in every run,
      whatever came before and whatever comes after, there is exactly one SUBSCRIBE_DONE for it, for ever, and its count
      is the number of streams the writer had opened.  The subscription has left the table. */
  lemma {:induction false} LateCloseDone(clientMax: nat, serverMax: nat, before: seq<Event>, p: Perspective, id: nat,
                                         after: seq<Event>)
    requires var s := Side(Run(Init(clientMax, serverMax), before), p);
      id in s.tracks.all && s.tracks.all[id].kind == Subscribe && (id in s.tracks.pending || id in s.tracks.open)
    ensures var n0 := Init(clientMax, serverMax);
      var closed := Apply(Run(n0, before), Event(p, Late(id, CloseWithError)));
      && DonesTo(Side(Run(closed, after), p).sent, id) == [SubscribeDone(id, Opened(n0, before, p, id))]
      && !Side(closed, p).tracks.Live(id)
  {
    var n0 := Init(clientMax, serverMax);
    InitSound(clientMax, serverMax);
    RunSound(n0, before);
    var n := Run(n0, before);
    CountIsOpened(clientMax, serverMax, before, p, id);
    CloseNow(n, p, id);
    DoneIsFinal(Apply(n, Event(p, Late(id, CloseWithError))), after, p, id);
  }

  /** A SUBSCRIBE that is let in. */
  ghost predicate AboutToServe(n: Net, p: Perspective) {
    && AboutToRead(n, p)
    && var m := Side(n, Other(p)).sent[Side(n, p).read];
       m.kind == Subscribe && m.namespaceOk && m.id < Side(n, p).localMax
  }

  lemma ServeNow(n: Net, p: Perspective, c: Choice)
    requires Sound(n) && AboutToServe(n, p)
    ensures var m, served := Side(n, Other(p)).sent[Side(n, p).read], Apply(n, Event(p, Deliver(c)));
      && Sound(served)
      && DonesTo(Side(served, p).sent, m.id) ==
         if ClosesLive(c.script, false) then [SubscribeDone(m.id, OpenedBy(c.script))] else []
  {
    var s, r := Side(n, p), Side(n, Other(p));
    var m := r.sent[s.read];
    assert s.ready;
    NextIsNew(s, r);
    NoneSoFar(s, m.id);
    ApplyAdds(n, p, Deliver(c), m.id);
    ApplySound(n, Event(p, Deliver(c)));
  }

  /** A subscription whose handler closes it while it is in the table has exactly one SUBSCRIBE_DONE, for ever, with the
      streams the handler opened before; any other has none when its handler is done, so only a close as above can
      write one. */
  lemma {:induction false} HandlerCloseDone(clientMax: nat, serverMax: nat, before: seq<Event>, p: Perspective,
                                            c: Choice, after: seq<Event>)
    requires AboutToServe(Run(Init(clientMax, serverMax), before), p)
    ensures var n := Run(Init(clientMax, serverMax), before);
      var m, served := Side(n, Other(p)).sent[Side(n, p).read], Apply(n, Event(p, Deliver(c)));
      if ClosesLive(c.script, false)
      then DonesTo(Side(Run(served, after), p).sent, m.id) == [SubscribeDone(m.id, OpenedBy(c.script))]
      else DonesTo(Side(served, p).sent, m.id) == []
  {
    var n0 := Init(clientMax, serverMax);
    InitSound(clientMax, serverMax);
    RunSound(n0, before);
    var n := Run(n0, before);
    ServeNow(n, p, c);
    if ClosesLive(c.script, false) {
      DoneIsFinal(Apply(n, Event(p, Deliver(c))), after, p, Side(n, Other(p)).sent[Side(n, p).read].id);
    }
  }
}
