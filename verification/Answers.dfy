/** One answer per incoming request, and exact accounting in SUBSCRIBE_DONE, whatever the handlers
    and late users of a response writer do. */
module Answers {
  import opened RequestIds
  import opened SessionTypes
  import opened LocalTracks
  import opened SessionModel
  import opened Network
  import opened CreditMoves
  import opened CreditSafety

  /** The track table agrees with the messages written so far. */
  ghost predicate Tidy(t: Tracks, log: seq<Msg>) {
    && t.pending !! t.open && t.pending + t.open <= t.all.Keys
    && (forall id :: id in t.all ==> IsTrack(t.all[id].kind))
    // at most one OK or ERROR for each ID, and none while it is pending
    && (forall i, j :: 0 <= i < j < |log| && IsAnswer(log[i]) && IsAnswer(log[j]) ==> log[i].id != log[j].id)
    && (forall i :: 0 <= i < |log| && IsAnswer(log[i]) ==> log[i].id !in t.pending)
    // at most one SUBSCRIBE_DONE for each ID, sent by a closed track that has left the table, with
    // the number of streams the track ever opened
    && (forall i, j :: 0 <= i < j < |log| && log[i].SubscribeDone? && log[j].SubscribeDone? ==> log[i].id != log[j].id)
    && (forall i :: 0 <= i < |log| && log[i].SubscribeDone? ==> Closed(t, log[i].id, log[i].streams))
  }

  ghost predicate Closed(t: Tracks, id: nat, streams: nat) {
    && id in t.all && !t.Live(id)
    && t.all[id].kind.Subscribe? && t.all[id].cause.Some? && t.all[id].streams == streams
  }

  lemma ActTidy(t: Tracks, log: seq<Msg>, id: nat, a: Action)
    requires Tidy(t, log) && id in t.all
    ensures Tidy(Act(t, id, a).0, log + Act(t, id, a).1)
  {}

  lemma {:induction false} HandleTidy(t: Tracks, log: seq<Msg>, id: nat, script: seq<Action>)
    requires Tidy(t, log) && id in t.all
    ensures Tidy(Handle(t, id, script).0, log + Handle(t, id, script).1)
    decreases |script|
  {
    if script == [] {
      assert log + [] == log;
    } else {
      var (t1, out) := Act(t, id, script[0]);
      ActTidy(t, log, id, script[0]);
      HandleTidy(t1, log + out, id, script[1..]);
      assert log + (out + Handle(t1, id, script[1..]).1) == log + out + Handle(t1, id, script[1..]).1;
    }
  }

  lemma ServeTidy(t: Tracks, log: seq<Msg>, id: nat, script: seq<Action>)
    requires Tidy(t, log) && id in t.all
    ensures Tidy(Serve(t, id, script).0, log + Serve(t, id, script).1)
  {
    var (t1, out) := Handle(t, id, script);
    HandleTidy(t, log, id, script);
    if !Handled(script) {
      ActTidy(t1, log + out, id, Reject);
      assert log + (out + Act(t1, id, Reject).1) == log + out + Act(t1, id, Reject).1;
    }
  }

  /** Whichever actions the handler took, the request has left the pending table, and no other has. */
  lemma {:induction false} HandlePending(t: Tracks, id: nat, script: seq<Action>)
    requires id in t.all
    ensures var p := Handle(t, id, script).0.pending; p == t.pending - {id} || (p == t.pending && !Handled(script))
    decreases |script|
  {
    if script != [] {
      HandlePending(Act(t, id, script[0]).0, id, script[1..]);
      assert Handled(script[1..]) ==> Handled(script);
      assert Handled(script) ==> Handled(script[1..]) || script[0].Accept? || script[0].Reject? by {
        if Handled(script) {
          var i :| 0 <= i < |script| && (script[i].Accept? || script[i].Reject?);
          assert i > 0 ==> script[1..][i - 1] == script[i];
        }
      }
    }
  }

  lemma ServePending(t: Tracks, id: nat, script: seq<Action>)
    requires id in t.all
    ensures Serve(t, id, script).0.pending == t.pending - {id}
  {
    HandlePending(t, id, script);
  }

  // ----- Between messages -----

  /** A request with this ID is among the first `k` messages. */
  ghost predicate Arrived(inbox: seq<Msg>, k: nat, id: nat) {
    exists i :: 0 <= i < k && i < |inbox| && inbox[i].Request? && inbox[i].id == id
  }

  /** Nothing is pending, and every answer or track belongs to a request already read. */
  ghost predicate Serving(s: SessionState, inbox: seq<Msg>) {
    && s.read <= |inbox|
    && s.tracks.pending == {} && Tidy(s.tracks, s.sent)
    && (forall id :: id in s.tracks.all ==> Arrived(inbox, s.read, id))
    && (forall i :: 0 <= i < |s.sent| && IsAnswer(s.sent[i]) ==> Arrived(inbox, s.read, s.sent[i].id))
  }

  lemma ArrivedMore(inbox: seq<Msg>, k: nat, more: seq<Msg>, l: nat, id: nat)
    requires Arrived(inbox, k, id) && k <= l
    ensures Arrived(inbox + more, l, id)
  {
    var i :| 0 <= i < k && i < |inbox| && inbox[i].Request? && inbox[i].id == id;
    assert (inbox + more)[i] == inbox[i];
  }

  lemma MoreInbox(s: SessionState, inbox: seq<Msg>, more: seq<Msg>)
    requires Serving(s, inbox)
    ensures Serving(s, inbox + more)
  {
    forall id | Arrived(inbox, s.read, id) ensures Arrived(inbox + more, s.read, id) {
      ArrivedMore(inbox, s.read, more, s.read, id);
    }
  }

  /** Writing messages that are neither answers nor SUBSCRIBE_DONE. */
  lemma TidyPlain(t: Tracks, log: seq<Msg>, out: seq<Msg>)
    requires Tidy(t, log)
    requires forall i :: 0 <= i < |out| ==> !IsAnswer(out[i]) && !out[i].SubscribeDone?
    ensures Tidy(t, log + out)
  {}

  lemma AdmittedServing(s: SessionState, k: Kind, id: nat, script: seq<Action>)
    requires Tidy(s.tracks, s.sent) && s.tracks.pending == {} && IsTrack(k)
    requires id !in s.tracks.all && id < s.localMax
    requires forall i :: 0 <= i < |s.sent| && IsAnswer(s.sent[i]) ==> s.sent[i].id != id
    ensures var t := OnTrackRequest(s, k, id, true, script);
      && Tidy(t.tracks, t.sent) && t.tracks.pending == {}
      && t.tracks.all.Keys <= s.tracks.all.Keys + {id}
  {
    var grow, t1 := GrowMessages(s.localMax, id), Add(s.tracks, id, k);
    TidyPlain(s.tracks, s.sent, grow);
    AddTidy(s.tracks, s.sent + grow, id, k);
    ServeTidy(t1, s.sent + grow, id, script);
    ServePending(t1, id, script);
  }

  lemma AddTidy(t: Tracks, log: seq<Msg>, id: nat, k: Kind)
    requires Tidy(t, log) && IsTrack(k) && id !in t.all
    requires forall i :: 0 <= i < |log| && IsAnswer(log[i]) ==> log[i].id != id
    ensures Tidy(Add(t, id, k), log)
  {}

  /** A request not seen before is served to the end within one message. */
  lemma TrackRequestServing(s: SessionState, k: Kind, id: nat, namespaceOk: bool, script: seq<Action>)
    requires Tidy(s.tracks, s.sent) && s.tracks.pending == {} && IsTrack(k)
    requires id !in s.tracks.all
    requires forall i :: 0 <= i < |s.sent| && IsAnswer(s.sent[i]) ==> s.sent[i].id != id
    ensures var t := OnTrackRequest(s, k, id, namespaceOk, script);
      && Tidy(t.tracks, t.sent) && t.tracks.pending == {}
      && t.tracks.all.Keys <= s.tracks.all.Keys + {id}
      && |s.sent| <= |t.sent| && s.sent == t.sent[..|s.sent|]
      && forall i :: |s.sent| <= i < |t.sent| && IsAnswer(t.sent[i]) ==> t.sent[i].id == id
  {
    if namespaceOk && id < s.localMax {
      AdmittedServing(s, k, id, script);
    } else {
      RefusedTidy(s, k, id, namespaceOk, script);
    }
  }

  lemma RefusedTidy(s: SessionState, k: Kind, id: nat, namespaceOk: bool, script: seq<Action>)
    requires Tidy(s.tracks, s.sent) && s.tracks.pending == {} && !(namespaceOk && id < s.localMax)
    requires forall i :: 0 <= i < |s.sent| && IsAnswer(s.sent[i]) ==> s.sent[i].id != id
    ensures var t := OnTrackRequest(s, k, id, namespaceOk, script);
      t.tracks == s.tracks && Tidy(s.tracks, t.sent)
  {}

  lemma TidyCancelled(t: Tracks, log: seq<Msg>, id: nat, c: Cause)
    requires Tidy(t, log) && id in t.all && t.Live(id)
    ensures Tidy(CancelTrack(t, id, c), log)
  {}

  lemma TidyRemoved(t: Tracks, log: seq<Msg>, id: nat)
    requires Tidy(t, log)
    ensures Tidy(Remove(t, id), log)
  {}

  lemma CancelTidy(s: SessionState, id: nat, drop: bool)
    requires Tidy(s.tracks, s.sent) && s.tracks.pending == {}
    ensures var t := OnCancel(s, id, drop);
      && t.sent == s.sent && Tidy(t.tracks, t.sent) && t.tracks.pending == {}
      && t.tracks.all.Keys == s.tracks.all.Keys
  {
    if s.tracks.Live(id) && id in s.tracks.all {
      TidyCancelled(s.tracks, s.sent, id, PeerUnsubscribed);
      TidyRemoved(CancelTrack(s.tracks, id, PeerUnsubscribed), s.sent, id);
    }
  }

  lemma SetupTalks(s: SessionState, m: Msg, c: Choice)
    requires !s.ready
    ensures var t := Receive(s, m, c);
      t.tracks == s.tracks && (t.sent == s.sent || t.sent == s.sent + [ServerSetup(SERVER_SETUP_MAX)])
  {}

  lemma RequestTalks(s: SessionState, m: Msg, c: Choice)
    requires s.ready && m.Request? && !IsTrack(m.kind)
    ensures var t := Receive(s, m, c);
      t.tracks == s.tracks && (t.sent == s.sent || t.sent == s.sent + Replies(m.kind, m.id, c.replies))
  {}

  lemma OthersTalk(s: SessionState, m: Msg, c: Choice)
    requires s.ready && !m.Request? && !m.Unsubscribe? && !m.FetchCancel?
    ensures var t := Receive(s, m, c); t.tracks == s.tracks && t.sent == s.sent
  {}

  /** Messages that only make the endpoint talk. */
  lemma TalkServing(s: SessionState, m: Msg, c: Choice)
    requires !(s.ready && (IsTrackRequest(m) || m.Unsubscribe? || m.FetchCancel?))
    ensures var t := Receive(s, m, c);
      && t.tracks == s.tracks
      && |s.sent| <= |t.sent| && s.sent == t.sent[..|s.sent|]
      && forall i :: |s.sent| <= i < |t.sent| ==> !IsAnswer(t.sent[i]) && !t.sent[i].SubscribeDone?
  {
    if !s.ready {
      SetupTalks(s, m, c);
    } else if m.Request? {
      RequestTalks(s, m, c);
    } else {
      OthersTalk(s, m, c);
    }
  }

  lemma OtherServing(s: SessionState, m: Msg, c: Choice)
    requires Tidy(s.tracks, s.sent) && s.tracks.pending == {} && !(s.ready && IsTrackRequest(m))
    ensures var t := Receive(s, m, c);
      && Tidy(t.tracks, t.sent) && t.tracks.pending == {}
      && t.tracks.all.Keys == s.tracks.all.Keys
      && |s.sent| <= |t.sent| && s.sent == t.sent[..|s.sent|]
      && forall i :: |s.sent| <= i < |t.sent| ==> !IsAnswer(t.sent[i])
  {
    if s.ready && (m.Unsubscribe? || m.FetchCancel?) {
      CancelTidy(s, m.id, m.FetchCancel?);
    } else {
      var t := Receive(s, m, c);
      TalkServing(s, m, c);
      TidyPlain(s.tracks, s.sent, t.sent[|s.sent|..]);
      assert s.sent + t.sent[|s.sent|..] == t.sent;
    }
  }

  /** Between messages, nothing is pending. */
  lemma DeliverServing(s: SessionState, peer: SessionState, c: Choice)
    requires Serving(s, peer.sent) && IdsUnique(peer) && s.read < |peer.sent|
    ensures Serving(Receive(s.(read := s.read + 1), peer.sent[s.read], c), peer.sent)
  {
    var s0, m := s.(read := s.read + 1), peer.sent[s.read];
    var t := Receive(s0, m, c);
    if s.ready && IsTrackRequest(m) {
      TrackRequestServing(s0, m.kind, m.id, m.namespaceOk, c.script);
    } else {
      OtherServing(s0, m, c);
    }
    AllArrived(s, t, peer.sent);
  }

  lemma AllArrived(s: SessionState, t: SessionState, inbox: seq<Msg>)
    requires Serving(s, inbox) && s.read < |inbox| && t.read == s.read + 1
    requires Tidy(t.tracks, t.sent) && t.tracks.pending == {}
    requires forall id :: id in t.tracks.all ==>
      id in s.tracks.all || (inbox[s.read].Request? && id == inbox[s.read].id)
    requires |s.sent| <= |t.sent| && s.sent == t.sent[..|s.sent|]
    requires forall i :: |s.sent| <= i < |t.sent| && IsAnswer(t.sent[i]) ==>
                           inbox[s.read].Request? && t.sent[i].id == inbox[s.read].id
    ensures Serving(t, inbox)
  {
    forall id | Arrived(inbox, s.read, id) ensures Arrived(inbox, t.read, id) {
      ArrivedMore(inbox, s.read, [], t.read, id);
      assert inbox + [] == inbox;
    }
    assert forall i :: 0 <= i < |s.sent| ==> t.sent[i] == s.sent[i];
  }

  lemma LateServing(s: SessionState, inbox: seq<Msg>, id: nat, a: Action)
    requires Serving(s, inbox)
    ensures Serving(UseWriter(s, id, a), inbox)
  {
    if id in s.tracks.all {
      ActTidy(s.tracks, s.sent, id, a);
    }
  }

  lemma CallServing(s: SessionState, inbox: seq<Msg>, step: Step)
    requires Serving(s, inbox) && !step.Deliver? && !step.Late?
    ensures Serving(StepAt(s, inbox, step), inbox)
  {
    var t := StepAt(s, inbox, step);
    var out := t.sent[|s.sent|..];
    TidyPlain(s.tracks, s.sent, out);
    assert s.sent + out == t.sent;
  }

  lemma ReadServing(s: SessionState, peer: SessionState, c: Choice)
    requires Serving(s, peer.sent) && IdsUnique(peer)
    ensures Serving(StepAt(s, peer.sent, Deliver(c)), peer.sent)
  {
    DeliverIs(s, peer.sent, c);
    if !s.failed && s.read < |peer.sent| {
      DeliverServing(s, peer, c);
    }
  }

  lemma StepServing(s: SessionState, peer: SessionState, step: Step)
    requires Serving(s, peer.sent) && IdsUnique(peer)
    ensures Serving(StepAt(s, peer.sent, step), peer.sent)
  {
    if step.Deliver? {
      ReadServing(s, peer, step.choice);
    } else if step.Late? {
      LateServing(s, peer.sent, step.id, step.action);
    } else {
      CallServing(s, peer.sent, step);
    }
  }

  /** The next request from a peer that never reuses an ID is new to the track table. */
  lemma NextIsNew(s: SessionState, peer: SessionState)
    requires Serving(s, peer.sent) && IdsUnique(peer)
    requires s.read < |peer.sent| && peer.sent[s.read].Request?
    ensures peer.sent[s.read].id !in s.tracks.all
  {
    assert !Arrived(peer.sent, s.read, peer.sent[s.read].id);
  }

  // ----- The first closing cause is kept -----

  /** No track disappears, and a cancelled track never changes again. */
  ghost predicate Persists(t: Tracks, u: Tracks) {
    forall id :: id in t.all ==>
      && id in u.all && u.all[id].kind == t.all[id].kind && t.all[id].streams <= u.all[id].streams
      && (t.all[id].cause.Some? ==> u.all[id] == t.all[id])
  }

  lemma ActPersists(t: Tracks, id: nat, a: Action)
    requires id in t.all
    ensures Persists(t, Act(t, id, a).0)
  {
    match a
    case Accept =>
    case Reject =>
    case CloseWithError =>
    case OpenSubgroup(_) =>
  }

  lemma {:induction false} HandlePersists(t: Tracks, id: nat, script: seq<Action>)
    requires id in t.all
    ensures Persists(t, Handle(t, id, script).0)
    decreases |script|
  {
    if script != [] {
      var t1 := Act(t, id, script[0]).0;
      ActPersists(t, id, script[0]);
      HandlePersists(t1, id, script[1..]);
    }
  }

  lemma ServePersists(t: Tracks, id: nat, script: seq<Action>)
    requires id in t.all
    ensures Persists(t, Serve(t, id, script).0)
  {
    HandlePersists(t, id, script);
    HandlePersists(Handle(t, id, script).0, id, [Reject]);
    assert [Reject][1..] == [];
  }

  lemma AdmittedTracks(s: SessionState, k: Kind, id: nat, script: seq<Action>)
    requires id < s.localMax && !s.tracks.Live(id)
    ensures OnTrackRequest(s, k, id, true, script).tracks == Serve(Add(s.tracks, id, k), id, script).0
  {}

  lemma RefusedTracks(s: SessionState, k: Kind, id: nat, namespaceOk: bool, script: seq<Action>)
    requires !(namespaceOk && id < s.localMax && !s.tracks.Live(id))
    ensures OnTrackRequest(s, k, id, namespaceOk, script).tracks.all == s.tracks.all
  {}

  lemma TrackRequestPersists(s: SessionState, k: Kind, id: nat, namespaceOk: bool, script: seq<Action>)
    requires id !in s.tracks.all
    ensures Persists(s.tracks, OnTrackRequest(s, k, id, namespaceOk, script).tracks)
  {
    if namespaceOk && id < s.localMax && !s.tracks.Live(id) {
      AdmittedTracks(s, k, id, script);
      AddPersists(s.tracks, id, k, script);
    } else {
      RefusedTracks(s, k, id, namespaceOk, script);
    }
  }

  lemma AddPersists(t: Tracks, id: nat, k: Kind, script: seq<Action>)
    requires id !in t.all
    ensures Persists(t, Serve(Add(t, id, k), id, script).0)
  {
    ServePersists(Add(t, id, k), id, script);
  }

  lemma ReceivePersists(s: SessionState, m: Msg, c: Choice)
    requires m.Request? ==> m.id !in s.tracks.all
    ensures Persists(s.tracks, Receive(s, m, c).tracks)
  {
    if s.ready && IsTrackRequest(m) {
      TrackRequestPersists(s, m.kind, m.id, m.namespaceOk, c.script);
    } else if s.ready && (m.Unsubscribe? || m.FetchCancel?) {
      assert Receive(s, m, c) == OnCancel(s, m.id, m.FetchCancel?);
    } else {
      TalkServing(s, m, c);
    }
  }

  lemma DeliverPersists(s: SessionState, peer: SessionState, c: Choice)
    requires Serving(s, peer.sent) && IdsUnique(peer)
    ensures Persists(s.tracks, StepAt(s, peer.sent, Deliver(c)).tracks)
  {
    DeliverIs(s, peer.sent, c);
    if !s.failed && s.read < |peer.sent| {
      if peer.sent[s.read].Request? {
        NextIsNew(s, peer);
      }
      ReceivePersists(s.(read := s.read + 1), peer.sent[s.read], c);
    }
  }

  lemma LatePersists(s: SessionState, id: nat, a: Action)
    ensures Persists(s.tracks, UseWriter(s, id, a).tracks)
  {
    if id in s.tracks.all {
      ActPersists(s.tracks, id, a);
    }
  }

  lemma CallKeepsTracks(s: SessionState, inbox: seq<Msg>, step: Step)
    requires !step.Deliver? && !step.Late?
    ensures StepAt(s, inbox, step).tracks == s.tracks
  {}

  lemma StepPersists(s: SessionState, peer: SessionState, step: Step)
    requires Serving(s, peer.sent) && IdsUnique(peer)
    ensures Persists(s.tracks, StepAt(s, peer.sent, step).tracks)
  {
    if step.Deliver? {
      DeliverPersists(s, peer, step.choice);
    } else if step.Late? {
      LatePersists(s, step.id, step.action);
    } else {
      CallKeepsTracks(s, peer.sent, step);
    }
  }
}
