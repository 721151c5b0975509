/** What each message does to a ready session, field by field. */
module SessionEffects {
  import opened RequestIds
  import opened SessionTypes
  import opened LocalTracks
  import opened SessionModel
  import opened Answers
  import opened ExactAnswers

  /** Serving a request changes no track but its own, whose kind stays. */
  lemma ActLocal(t: Tracks, id: nat, a: Action)
    requires id in t.all
    ensures var u := Act(t, id, a).0;
      && u.all.Keys == t.all.Keys && u.all[id].kind == t.all[id].kind
      && forall j :: j in t.all && j != id ==> u.all[j] == t.all[j] && (u.Live(j) <==> t.Live(j))
  {}

  ghost predicate LocalTo(t: Tracks, u: Tracks, id: nat) {
    && id in t.all && u.all.Keys == t.all.Keys && u.all[id].kind == t.all[id].kind
    && forall j :: j in t.all && j != id ==> u.all[j] == t.all[j] && (u.Live(j) <==> t.Live(j))
  }

  lemma {:induction false} HandleLocal(t: Tracks, id: nat, script: seq<Action>)
    requires id in t.all
    ensures LocalTo(t, Handle(t, id, script).0, id)
    decreases |script|
  {
    if script != [] {
      ActLocal(t, id, script[0]);
      HandleLocal(Act(t, id, script[0]).0, id, script[1..]);
    }
  }

  lemma ServeLocal(t: Tracks, id: nat, script: seq<Action>)
    requires id in t.all
    ensures LocalTo(t, Serve(t, id, script).0, id)
  {
    HandleLocal(t, id, script);
    ActLocal(Handle(t, id, script).0, id, Reject);
  }

  /** A track of kind `k` for `id`, and no other track touched. */
  ghost predicate Gains(t: Tracks, u: Tracks, id: nat, k: Kind) {
    && id in u.all && u.all[id].kind == k && id !in u.pending
    && u.all.Keys == t.all.Keys + {id}
    && forall j :: j in t.all && j != id ==> u.all[j] == t.all[j] && (u.Live(j) <==> t.Live(j))
  }

  lemma ServedGains(t: Tracks, id: nat, k: Kind, script: seq<Action>)
    requires !t.Live(id)
    ensures Gains(t, Serve(Add(t, id, k), id, script).0, id, k)
  {
    ServeLocal(Add(t, id, k), id, script);
    ServePending(Add(t, id, k), id, script);
  }

  lemma AdmittedState(s: SessionState, k: Kind, id: nat, script: seq<Action>)
    requires id < s.localMax && !s.tracks.Live(id)
    ensures var t := OnTrackRequest(s, k, id, true, script);
      && t.localMax == (if id >= s.localMax / 2 then 2 * s.localMax else s.localMax)
      && t.sent == s.sent + (if id >= s.localMax / 2 then [MaxRequestId(2 * s.localMax)] else []) +
                   Serve(Add(s.tracks, id, k), id, script).1
      && t.tracks == Serve(Add(s.tracks, id, k), id, script).0
      && t.ids == s.ids && t.faults == s.faults
  {}

  /** A SUBSCRIBE or FETCH of an acceptable namespace and a new ID below the limit gets a track of its kind; an ID
      from the upper half of the limit doubles it and says so first. */
  lemma TrackRequestAdmitted(s: SessionState, k: Kind, id: nat, c: Choice)
    requires s.ready && IsTrack(k) && id < s.localMax && !s.tracks.Live(id)
    ensures var t := Receive(s, Request(k, id, true), c);
      var grow := if id >= s.localMax / 2 then [MaxRequestId(2 * s.localMax)] else [];
      && Gains(s.tracks, t.tracks, id, k)
      && t.localMax == (if id >= s.localMax / 2 then 2 * s.localMax else s.localMax)
      && |s.sent + grow| <= |t.sent| && t.sent[..|s.sent + grow|] == s.sent + grow
      && t.ids == s.ids && t.faults == s.faults
  {
    AdmittedState(s, k, id, c.script);
    ServedGains(s.tracks, id, k, c.script);
  }

  /** An ID at or above the limit: a SUBSCRIBE is answered with an error and forgotten, a FETCH ends the session. */
  lemma TrackRequestAboveLimit(s: SessionState, k: Kind, id: nat, c: Choice)
    requires s.ready && IsTrack(k) && id >= s.localMax
    ensures var t := Receive(s, Request(k, id, true), c);
      && t.localMax == s.localMax && t.faults == s.faults + {MaxViolated}
      && (k.Subscribe? ==> t.sent == s.sent + [Error(Subscribe, id)] && t.tracks == s.tracks && t.failed == s.failed)
      && (k.Fetch? ==> t.failed && id !in t.tracks.pending && t.tracks.all == s.tracks.all)
      && (k.Fetch? ==> t.sent == s.sent + if id in s.tracks.pending then [Error(Fetch, id)] else [])
  {
    assert s.sent + [] == s.sent;
  }

  /** An ID below the limit that is still pending or open: the limit grows as for a new one, then a SUBSCRIBE is
      answered with an error, and a FETCH ends the session. */
  lemma TrackRequestDuplicate(s: SessionState, k: Kind, id: nat, c: Choice)
    requires s.ready && IsTrack(k) && id < s.localMax && s.tracks.Live(id)
    ensures var t := Receive(s, Request(k, id, true), c);
      var grow := if id >= s.localMax / 2 then [MaxRequestId(2 * s.localMax)] else [];
      && t.localMax == (if id >= s.localMax / 2 then 2 * s.localMax else s.localMax)
      && t.faults == s.faults + {DuplicateId}
      && (k.Subscribe? ==>
            t.sent == s.sent + grow + [Error(Subscribe, id)] && t.tracks == s.tracks && t.failed == s.failed)
      && (k.Fetch? ==> t.failed && id !in t.tracks.pending && t.tracks.all == s.tracks.all)
      && (k.Fetch? ==> t.sent == s.sent + grow + if id in s.tracks.pending then [Error(Fetch, id)] else [])
  {
    assert forall log: seq<Msg> :: log + [] == log;
  }

  /** An unacceptable namespace ends the session and changes nothing else. */
  lemma TrackRequestNameless(s: SessionState, k: Kind, id: nat, c: Choice)
    requires s.ready && (IsTrack(k) || k.Announce?)
    ensures Receive(s, Request(k, id, false), c) == s.(failed := true)
  {}

  lemma AnnouncementAnswered(s: SessionState, k: Kind, id: nat, c: Choice)
    requires s.ready && (k.Announce? || k.SubscribeAnnounces?)
    ensures var t := Receive(s, Request(k, id, true), c);
      && t == s.(sent := t.sent) && |t.sent| == |s.sent| + |c.replies| && t.sent[..|s.sent|] == s.sent
      && forall i :: 0 <= i < |c.replies| ==>
           t.sent[|s.sent| + i] == if c.replies[i] then Ok(k, id) else Error(k, id)
  {}

  /** UNSUBSCRIBE cancels the track with that ID, unless it has a cause already; FETCH_CANCEL also drops it.  An ID
      that is neither pending nor open ends the session. */
  lemma CancelEffect(s: SessionState, id: nat, drop: bool, c: Choice)
    requires s.ready && (s.tracks.Live(id) ==> id in s.tracks.all)
    ensures var t := Receive(s, if drop then FetchCancel(id) else Unsubscribe(id), c);
      && t == s.(failed := t.failed, tracks := t.tracks) && t.tracks.all.Keys == s.tracks.all.Keys
      && (!s.tracks.Live(id) ==> t.failed && t.tracks == s.tracks)
      && (s.tracks.Live(id) ==>
            && t.failed == s.failed
            && t.tracks.all[id].cause == (if s.tracks.all[id].cause.Some? then s.tracks.all[id].cause
                                          else Some(PeerUnsubscribed))
            && t.tracks.all[id].streams == s.tracks.all[id].streams && t.tracks.all[id].kind == s.tracks.all[id].kind
            && (forall j :: j in s.tracks.all && j != id ==> t.tracks.all[j] == s.tracks.all[j])
            && (drop ==> t.tracks.pending == s.tracks.pending - {id} && t.tracks.open == s.tracks.open - {id})
            && (!drop ==> t.tracks.pending == s.tracks.pending && t.tracks.open == s.tracks.open))
  {
    assert Receive(s, if drop then FetchCancel(id) else Unsubscribe(id), c) == OnCancel(s, id, drop);
  }

  /** MAX_REQUEST_ID replaces the limit; a lower one ends the session and leaves it. */
  lemma LimitEffect(s: SessionState, v: nat, c: Choice)
    requires s.ready
    ensures Receive(s, MaxRequestId(v), c) ==
      if v >= s.ids.max then s.(ids := Generator(s.ids.id, v, s.ids.interval))
      else s.(failed := true, faults := s.faults + {MaxDecreased})
  {}

  /** REQUESTS_BLOCKED changes nothing; SUBSCRIBE_UPDATE only needs an ID that is pending or open. */
  lemma NoticeEffect(s: SessionState, n: nat, c: Choice)
    requires s.ready
    ensures Receive(s, RequestsBlocked(n), c) == s
    ensures Receive(s, SubscribeUpdate(n), c) ==
            if n in s.tracks.pending || n in s.tracks.open then s else s.(failed := true)
  {}

  /** The setup messages before the handshake: the server takes over a limit above zero and answers with its own,
      100; the client takes over whatever limit it reads. */
  lemma SetupEffect(s: SessionState, max: nat, c: Choice)
    requires !s.ready && !s.failed && s.ids.max == 0
    ensures s.perspective.Server? ==>
      Receive(s, ClientSetup(max), c) ==
      s.(ids := Generator(s.ids.id, max, s.ids.interval), sent := s.sent + [ServerSetup(100)], ready := true)
    ensures s.perspective.Client? ==>
      Receive(s, ServerSetup(max), c) == s.(ids := Generator(s.ids.id, max, s.ids.interval), ready := true)
  {}

  /** A setup message of the wrong side or at the wrong time, and any other message before the handshake, ends the
      session. */
  lemma UnexpectedEffect(s: SessionState, m: Msg, c: Choice)
    requires if s.ready then m.ClientSetup? || m.ServerSetup?
             else !(if s.perspective.Server? then m.ClientSetup? else m.ServerSetup?)
    ensures var t := Receive(s, m, c); t == s.(failed := true, faults := t.faults) && t.faults != {}
  {}

  /** A handler that neither accepts nor rejects has its request rejected; where it closed the subscription instead,
      there is nothing left to reject, and that error ends the session. */
  lemma ServedFails(s: SessionState, k: Kind, id: nat, c: Choice)
    requires s.ready && IsTrack(k) && id < s.localMax && !s.tracks.Live(id)
    ensures Receive(s, Request(k, id, true), c).failed <==>
      || s.failed
      || (k.Subscribe? && (exists i :: 0 <= i < |c.script| && c.script[i].CloseWithError?)
          && forall i :: 0 <= i < |c.script| ==> !c.script[i].Accept? && !c.script[i].Reject?)
  {
    var t := Add(s.tracks, id, k);
    HandleVerdict(t, id, c.script);
    if forall i :: 0 <= i < |c.script| ==> !c.script[i].Accept? && !c.script[i].Reject? {
      SettlingIs(k, c.script);
    }
    AdmittedFails(s, k, id, c.script);
  }

  lemma AdmittedFails(s: SessionState, k: Kind, id: nat, script: seq<Action>)
    requires id < s.localMax && !s.tracks.Live(id)
    ensures var t := Handle(Add(s.tracks, id, k), id, script).0;
      OnTrackRequest(s, k, id, true, script).failed <==> s.failed || (!Handled(script) && id !in t.pending)
  {}

  lemma {:induction false} SettlingIs(k: Kind, script: seq<Action>)
    requires forall i :: 0 <= i < |script| ==> !script[i].Accept? && !script[i].Reject?
    ensures Settling(k, script).None? <==>
            !(k.Subscribe? && exists i :: 0 <= i < |script| && script[i].CloseWithError?)
  {
    if script != [] {
      assert forall i :: 0 <= i < |script| - 1 ==> script[1..][i] == script[i + 1];
      SettlingIs(k, script[1..]);
      assert forall i :: 0 < i < |script| ==> script[i] == script[1..][i - 1];
    }
  }
}
