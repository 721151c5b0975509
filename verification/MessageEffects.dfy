/** From the bytes of a message to what it does to a ready session: each message that is written well is read, and
    has the effect its handler describes. */
module MessageEffects {
  import opened Varint
  import opened Fields
  import opened PlainBodies
  import opened SubscribeCodec
  import opened SubscribeOkCodec
  import opened FetchCodec
  import opened ControlMessages
  import opened Framing
  import opened Channel
  import S = SessionTypes
  import M = SessionModel
  import E = SessionEffects
  import L = LocalTracks

  /** What reading `m` makes of a session: an error of the parser ends it; messages it does not model are left out. */
  function Hear(s: M.SessionState, m: Message, c: M.Choice): S.Option<M.SessionState>
    requires WellFormed(m) && Sendable(m)
  {
    if Arrives(m).Failure? || !WellFormed(Arrives(m).value) then S.Some(s.(failed := true))
    else
      match Meaning(Arrives(m).value)
      case None => S.None
      case Some(e) => S.Some(M.Receive(s, e, c))
  }

  /** A message that is read reads as one of the same meaning. */
  lemma HearsMeaning(s: M.SessionState, m: Message, c: M.Choice)
    requires WellFormed(m) && Sendable(m) && Accepted(m)
    ensures Hear(s, m, c) == if Meaning(m).Some? then S.Some(M.Receive(s, Meaning(m).value, c)) else S.None
  {
    AcceptedArrives(m);
    MeaningSurvives(m);
  }

  // ----- Requests -----

  /** What a ready session makes of a SUBSCRIBE or FETCH for a namespace of `n` elements: one without elements or with
      more than 32 ends it, and nothing else; with 1 to 32, a new ID below the limit gets a track of kind `k`. */
  ghost predicate TrackRequestEffect(s: M.SessionState, t: M.SessionState, k: S.Kind, id: nat, n: nat) {
    && (n == 0 || n > 32 ==> t == s.(failed := true))
    && (1 <= n <= 32 && id < s.localMax && !s.tracks.Live(id) ==>
          && E.Gains(s.tracks, t.tracks, id, k)
          && t.localMax == if id >= s.localMax / 2 then 2 * s.localMax else s.localMax)
    && (1 <= n <= 32 && id >= s.localMax && k.Subscribe? ==>
          t.sent == s.sent + [S.Error(S.Subscribe, id)] && t.tracks == s.tracks && t.failed == s.failed)
    && (1 <= n <= 32 && id >= s.localMax && k.Fetch? ==> t.failed && t.tracks.all == s.tracks.all)
    && (1 <= n <= 32 && id < s.localMax && s.tracks.Live(id) ==>
          && t.tracks.all == s.tracks.all && t.localMax == (if id >= s.localMax / 2 then 2 * s.localMax else s.localMax)
          && (if k.Subscribe?
              then t.sent != [] && t.sent[|t.sent| - 1] == S.Error(S.Subscribe, id) && t.failed == s.failed
              else t.failed))
  }

  lemma RequestEffect(s: M.SessionState, k: S.Kind, id: nat, n: nat, c: M.Choice)
    requires s.ready && (k.Subscribe? || k.Fetch?)
    ensures TrackRequestEffect(s, M.Receive(s, S.Request(k, id, 1 <= n <= 32), c), k, id, n)
  {
    if !(1 <= n <= 32) {
      E.TrackRequestNameless(s, k, id, c);
    } else if id >= s.localMax {
      E.TrackRequestAboveLimit(s, k, id, c);
    } else if !s.tracks.Live(id) {
      E.TrackRequestAdmitted(s, k, id, c);
    } else {
      E.TrackRequestDuplicate(s, k, id, c);
    }
  }

  /** Any SUBSCRIBE whose group order and forward flag are in range, whatever its filter. */
  lemma SubscribeEffect(s: M.SessionState, b: SubscribeMessage, c: M.Choice)
    requires s.ready && b.groupOrder <= 2 && b.forward <= 1
    ensures Hear(s, ASubscribe(b), c).Some?
    ensures TrackRequestEffect(s, Hear(s, ASubscribe(b), c).value, S.Subscribe, b.id, |b.track|)
  {
    HearsMeaning(s, ASubscribe(b), c);
    RequestEffect(s, S.Subscribe, b.id, |b.track|, c);
  }

  /** Any standalone FETCH (type 1); a joining one (2 or 3) names no track, so it ends the session. */
  lemma FetchEffect(s: M.SessionState, b: FetchMessage, c: M.Choice)
    requires s.ready && b.groupOrder <= 2 && 1 <= b.fetchType <= 3
    ensures Hear(s, AFetch(b), c).Some?
    ensures b.fetchType == 1 ==> TrackRequestEffect(s, Hear(s, AFetch(b), c).value, S.Fetch, b.id, |b.track|)
    ensures b.fetchType != 1 ==> Hear(s, AFetch(b), c).value == s.(failed := true)
  {
    HearsMeaning(s, AFetch(b), c);
    RequestEffect(s, S.Fetch, b.id, if b.fetchType == 1 then |b.track| else 0, c);
  }

  /** A SUBSCRIBE or FETCH with a flag out of range is refused by the parser, which ends the session. */
  lemma BadFlagsEnd(s: M.SessionState, b: SubscribeMessage, f: FetchMessage, c: M.Choice)
    requires b.groupOrder > 2 || b.forward > 1
    requires f.groupOrder > 2 || f.fetchType == 0 || f.fetchType > 3
    ensures Hear(s, ASubscribe(b), c) == S.Some(s.(failed := true))
    ensures Hear(s, AFetch(f), c) == S.Some(s.(failed := true))
  {}

  /** A SUBSCRIBE_OK or FETCH_OK answers the request with its ID. */
  lemma OkMeaning(b: SubscribeOkMessage, f: FetchOkMessage, u: SubscribeUpdateMessage)
    ensures Meaning(ASubscribeOk(b)) == S.Some(S.Ok(S.Subscribe, b.id))
    ensures Meaning(AFetchOk(f)) == S.Some(S.Ok(S.Fetch, f.id))
    ensures Meaning(ASubscribeUpdate(u)) == S.Some(S.SubscribeUpdate(u.id))
  {}

  lemma AnnounceEffect(s: M.SessionState, id: VarInt, names: Tuple, ps: KvpList, c: M.Choice)
    requires s.ready
    ensures var m := PlainMessage(Announce, [Number(id), Names(names), Params(ps)]);
      && WellFormed(m) && Hear(s, m, c).Some?
      && var t := Hear(s, m, c).value;
      && (|names| == 0 || |names| > 32 ==> t == s.(failed := true))
      && (1 <= |names| <= 32 ==>
            && t == s.(sent := t.sent) && |t.sent| == |s.sent| + |c.replies| && t.sent[..|s.sent|] == s.sent
            && forall i :: 0 <= i < |c.replies| ==>
                 t.sent[|s.sent| + i] == if c.replies[i] then S.Ok(S.Announce, id) else S.Error(S.Announce, id))
  {
    var m := PlainMessage(Announce, [Number(id), Names(names), Params(ps)]);
    HearsMeaning(s, m, c);
    assert Meaning(m) == S.Some(S.Request(S.Announce, id, 1 <= |names| <= 32));
    if 1 <= |names| <= 32 {
      E.AnnouncementAnswered(s, S.Announce, id, c);
    } else {
      E.TrackRequestNameless(s, S.Announce, id, c);
    }
  }

  /** SUBSCRIBE_ANNOUNCES is answered for any prefix. */
  lemma SubscribeAnnouncesEffect(s: M.SessionState, id: VarInt, prefix: Tuple, ps: KvpList, c: M.Choice)
    requires s.ready
    ensures var m := PlainMessage(SubscribeAnnounces, [Number(id), Names(prefix), Params(ps)]);
      && WellFormed(m) && Hear(s, m, c).Some?
      && var t := Hear(s, m, c).value;
      && t == s.(sent := t.sent) && |t.sent| == |s.sent| + |c.replies| && t.sent[..|s.sent|] == s.sent
      && forall i :: 0 <= i < |c.replies| ==>
           t.sent[|s.sent| + i] ==
           if c.replies[i] then S.Ok(S.SubscribeAnnounces, id) else S.Error(S.SubscribeAnnounces, id)
  {
    var m := PlainMessage(SubscribeAnnounces, [Number(id), Names(prefix), Params(ps)]);
    HearsMeaning(s, m, c);
    E.AnnouncementAnswered(s, S.SubscribeAnnounces, id, c);
  }

  // ----- Messages of one number -----

  /** UNSUBSCRIBE n cancels track n, FETCH_CANCEL n also drops it, MAX_REQUEST_ID n makes the limit n,
      REQUESTS_BLOCKED n changes nothing. */
  lemma NumberEffect(s: M.SessionState, k: Kind, n: VarInt, c: M.Choice)
    requires s.ready && (s.tracks.Live(n) ==> n in s.tracks.all)
    requires k in {Unsubscribe, FetchCancel, MaxRequestId, RequestsBlocked}
    ensures WellFormed(PlainMessage(k, [Number(n)])) && Hear(s, PlainMessage(k, [Number(n)]), c).Some?
    ensures var t := Hear(s, PlainMessage(k, [Number(n)]), c).value;
      && (k.RequestsBlocked? ==> t == s)
      && (k.MaxRequestId? && n >= s.ids.max ==> t.ids.max == n && t.failed == s.failed && t.tracks == s.tracks)
      && (k.MaxRequestId? && n < s.ids.max ==> t.failed && t.ids == s.ids && t.tracks == s.tracks)
      && (k.Unsubscribe? || k.FetchCancel? ==>
            if !s.tracks.Live(n) then t.failed && t.tracks == s.tracks
            else
              && t.failed == s.failed
              && t.tracks.all[n].cause == (if s.tracks.all[n].cause.Some? then s.tracks.all[n].cause
                                           else S.Some(L.PeerUnsubscribed))
              && (t.tracks.Live(n) <==> k.Unsubscribe?))
  {
    var m := PlainMessage(k, [Number(n)]);
    HearsMeaning(s, m, c);
    if k.RequestsBlocked? {
      E.NoticeEffect(s, n, c);
    } else if k.MaxRequestId? {
      E.LimitEffect(s, n, c);
    } else {
      E.CancelEffect(s, n, k.FetchCancel?, c);
    }
  }

  /** The answers to requests, whose further effect the tables of the requester decide. */
  lemma ReplyMeaning(k: Kind, n: VarInt, error: VarInt, reason: Blob)
    ensures k in {AnnounceOk, SubscribeAnnouncesOk} ==>
      && WellFormed(PlainMessage(k, [Number(n)]))
      && Meaning(PlainMessage(k, [Number(n)])) ==
         S.Some(S.Ok(if k.AnnounceOk? then S.Announce else S.SubscribeAnnounces, n))
    ensures k in {SubscribeError, FetchError, AnnounceError, SubscribeAnnouncesError} ==>
      && WellFormed(PlainMessage(k, [Number(n), Number(error), Text(reason)]))
      && Meaning(PlainMessage(k, [Number(n), Number(error), Text(reason)])) ==
         S.Some(S.Error(if k.SubscribeError? then S.Subscribe else if k.FetchError? then S.Fetch
                        else if k.AnnounceError? then S.Announce else S.SubscribeAnnounces, n))
  {}

  /** SUBSCRIBE_DONE carries the ID, a status, the number of streams and a reason. */
  lemma SubscribeDoneMeaning(id: VarInt, status: VarInt, streams: VarInt, reason: Blob)
    ensures var m := PlainMessage(SubscribeDone, [Number(id), Number(status), Number(streams), Text(reason)]);
      WellFormed(m) && Meaning(m) == S.Some(S.SubscribeDone(id, streams))
  {}

  // ----- Setup messages -----

  /** The limit of a setup message is the number of its first parameter with key 2, and 0 without one. */
  lemma {:induction false} LimitParameter(ps: seq<KeyValue>, i: nat)
    requires i <= |ps| && (forall j :: 0 <= j < i ==> ps[j].key != 2) && (i < |ps| ==> ps[i].key == 2)
    ensures MaxRequestIdOf(ps) == if i < |ps| then ps[i].number else 0
  {
    if i > 0 {
      LimitParameter(ps[1..], i - 1);
    }
  }

  /** Before the handshake: the peer's setup message makes its limit parameter the limit of this side; the server
      answers with its own limit, 100. */
  lemma SetupMessageEffect(s: M.SessionState, versions: Versions, version: VarInt, ps: KvpList, i: nat, c: M.Choice)
    requires !s.ready && !s.failed && s.ids.max == 0
    requires i <= |ps| && (forall j :: 0 <= j < i ==> ps[j].key != 2) && (i < |ps| ==> ps[i].key == 2)
    ensures var hello, answer := PlainMessage(ClientSetup, [Numbers(versions), Params(ps)]),
              PlainMessage(ServerSetup, [Number(version), Params(ps)]);
      var limit := if i < |ps| then ps[i].number else 0;
      && WellFormed(hello) && WellFormed(answer)
      && (s.perspective.Server? ==>
            Hear(s, hello, c) ==
            S.Some(s.(ids := s.ids.(max := limit), sent := s.sent + [S.ServerSetup(100)], ready := true)))
      && (s.perspective.Client? ==> Hear(s, answer, c) == S.Some(s.(ids := s.ids.(max := limit), ready := true)))
  {
    var hello, answer := PlainMessage(ClientSetup, [Numbers(versions), Params(ps)]),
      PlainMessage(ServerSetup, [Number(version), Params(ps)]);
    LimitParameter(ps, i);
    HearsMeaning(s, hello, c);
    HearsMeaning(s, answer, c);
    E.SetupEffect(s, MaxRequestIdOf(ps), c);
  }
}
