/** The handlers of session.go that take a message off the wire and look at its namespace, on the session object. */
module SessionInput {
  import opened Varint
  import opened Fields
  import opened SubscribeCodec
  import opened FetchCodec
  import opened LocalTracks
  import opened MessageEffects
  import opened SessionObject
  import S = SessionTypes
  import M = SessionModel

  /** onSubscribe. */
  method OnSubscribe(session: Session, m: SubscribeMessage, script: seq<Action>)
    requires session.Valid() && session.handshakeDone && !session.failed
    modifies session.Footprint()
    ensures session.Valid() && fresh(session.Footprint() - old(session.Footprint()))
    ensures TrackRequestEffect(old(session.View()), session.View(), S.Subscribe, m.id, |m.track|)
  {
    Admit(session, S.Subscribe, m.id, m.track, script);
  }

  /** onFetch: the fetch type is not looked at, but only a standalone FETCH is read with a namespace. */
  method OnFetch(session: Session, m: FetchMessage, script: seq<Action>)
    requires session.Valid() && session.handshakeDone && !session.failed
    modifies session.Footprint()
    ensures session.Valid() && fresh(session.Footprint() - old(session.Footprint()))
    ensures TrackRequestEffect(old(session.View()), session.View(), S.Fetch, m.id, |m.track|)
  {
    Admit(session, S.Fetch, m.id, m.track, script);
  }

  method Admit(session: Session, k: S.Kind, id: VarInt, track: Tuple, script: seq<Action>)
    requires session.Valid() && session.handshakeDone && !session.failed && (k.Subscribe? || k.Fetch?)
    modifies session.Footprint()
    ensures session.Valid() && fresh(session.Footprint() - old(session.Footprint()))
    ensures TrackRequestEffect(old(session.View()), session.View(), k, id, |track|)
  {
    ghost var s := session.View();
    AdmitIs(s, k, id, |track|, script);
    if |track| == 0 || |track| > 32 {
      session.failed := true;
      assert session.View() == s.(failed := true);
      return;
    }
    session.AdmitAndServe(k, id, script);
  }

  lemma AdmitIs(s: M.SessionState, k: S.Kind, id: nat, n: nat, script: seq<Action>)
    requires s.ready && (k.Subscribe? || k.Fetch?)
    ensures n == 0 || n > 32 ==> TrackRequestEffect(s, s.(failed := true), k, id, n)
    ensures 1 <= n <= 32 ==> TrackRequestEffect(s, M.OnTrackRequest(s, k, id, true, script), k, id, n)
  {
    var c := M.Choice(script, [], true);
    RequestEffect(s, k, id, n, c);
    assert M.Receive(s, S.Request(k, id, 1 <= n <= 32), c) == M.OnTrackRequest(s, k, id, 1 <= n <= 32, script);
  }

  /** onAnnounce; `replies` is what the handler writes, true for OK. */
  method OnAnnounce(session: Session, id: VarInt, namespace: Tuple, replies: seq<bool>)
    requires session.Valid() && session.handshakeDone && !session.failed
    modifies session
    ensures session.Valid() && session.localTracks.all == old(session.localTracks.all)
    ensures session.failed == (|namespace| == 0 || |namespace| > 32)
    ensures session.View() == old(session.View()).(failed := session.failed, sent := session.sent)
    ensures session.sent == old(session.sent) +
      if 1 <= |namespace| <= 32
      then seq(|replies|, i requires 0 <= i < |replies| =>
        if replies[i] then S.Ok(S.Announce, id) else S.Error(S.Announce, id))
      else []
  {
    if |namespace| == 0 || |namespace| > 32 {
      session.failed := true;
      assert session.sent + [] == session.sent;
      return;
    }
    session.sent := session.sent + M.Replies(S.Announce, id, replies);
  }
}
