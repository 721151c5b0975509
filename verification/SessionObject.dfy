/** The session as the objects of the source: fields updated in place by the reader and by response
    writers.  Every method is tied to the value-level function of the same step. */
module SessionObject {
  import opened RequestIds
  import opened SessionTypes
  import opened LocalTracks
  import opened SessionModel

  class LocalTrack {
    const requestId: nat
    const kind: Kind
    var subgroupCount: nat
    var cause: Option<Cause>

    ghost function View(): Track
      reads this
    {
      Track(kind, subgroupCount, cause)
    }

    constructor (requestId: nat, kind: Kind)
      ensures this.requestId == requestId && this.kind == kind && View() == Track(kind, 0, None)
    {
      this.requestId, this.kind, subgroupCount, cause := requestId, kind, 0, None;
    }

    /** Cancelling the track's context; a context keeps its first cause. */
    method CancelWith(c: Cause)
      modifies this`cause
      ensures View() == Cancel(old(View()), c)
    {
      if cause.None? {
        cause := Some(c);
      }
    }

    method OpenSubgroup(streamOpens: bool) returns (ok: bool)
      modifies this`subgroupCount
      ensures ok == (old(cause).None? && streamOpens)
      ensures View() == if ok then old(View()).(streams := old(View()).streams + 1) else old(View())
    {
      if cause.Some? || !streamOpens {
        return false;
      }
      subgroupCount := subgroupCount + 1;
      return true;
    }
  }

  class LocalTrackMap {
    var pending: map<nat, LocalTrack>
    var open: map<nat, LocalTrack>
    ghost var all: map<nat, LocalTrack>   // tracks outlive their table entry in response writers

    ghost predicate Valid()
      reads this
    {
      && (forall id :: id in pending ==> id in all && all[id] == pending[id])
      && (forall id :: id in open ==> id in all && all[id] == open[id])
      && (forall id :: id in all ==> all[id].requestId == id)
    }

    ghost function View(): Tracks
      reads this, all.Values
    {
      Tracks(pending.Keys, open.Keys, map id | id in all :: all[id].View())
    }

    constructor ()
      ensures Valid() && all == map[] && View() == Tracks({}, {}, map[])
    {
      pending, open, all := map[], map[], map[];
    }

    method AddPending(lt: LocalTrack) returns (ok: bool)
      requires Valid() && lt.View() == Track(lt.kind, 0, None)
      modifies this
      ensures Valid() && ok == !old(View()).Live(lt.requestId)
      ensures all == if ok then old(all)[lt.requestId := lt] else old(all)
      ensures View() == if ok then Add(old(View()), lt.requestId, lt.kind) else old(View())
    {
      if lt.requestId in pending || lt.requestId in open {
        return false;
      }
      pending := pending[lt.requestId := lt];
      all := all[lt.requestId := lt];
      assert View().all == old(View()).all[lt.requestId := Track(lt.kind, 0, None)];
      return true;
    }

    method FindById(id: nat) returns (lt: LocalTrack?)
      requires Valid()
      ensures lt != null <==> View().Live(id)
      ensures lt != null ==> id in all && lt == all[id]
    {
      if id in pending {
        return pending[id];
      }
      if id in open {
        return open[id];
      }
      return null;
    }

    method Delete(id: nat) returns (lt: LocalTrack?)
      requires Valid()
      modifies this`pending, this`open
      ensures Valid() && (lt != null <==> old(View()).Live(id))
      ensures lt != null ==> id in all && lt == all[id]
      ensures View() == Remove(old(View()), id)
    {
      lt := FindById(id);
      pending, open := pending - {id}, open - {id};
    }

    method Confirm(id: nat) returns (ok: bool)
      requires Valid()
      modifies this`pending, this`open
      ensures Valid() && ok == (id in old(View()).pending)
      ensures var was := old(View());
        View() == if ok then was.(pending := was.pending - {id}, open := was.open + {id}) else was
    {
      if id !in pending {
        return false;
      }
      open := open[id := pending[id]];
      pending := pending - {id};
      return true;
    }

    method RejectPending(id: nat) returns (ok: bool)
      requires Valid()
      modifies this`pending
      ensures Valid() && ok == (id in old(View()).pending)
      ensures View() == old(View()).(pending := old(View()).pending - {id})
    {
      if id !in pending {
        return false;
      }
      pending := pending - {id};
      return true;
    }
  }

  /** What a handler holds on to: SubscribeResponseWriter, or fetchResponseWriter for a fetch. */
  class ResponseWriter {
    const track: LocalTrack
    var handled: bool

    constructor (track: LocalTrack)
      ensures this.track == track && !handled
    {
      this.track, handled := track, false;
    }
  }

  class Session {
    const perspective: Perspective
    const initialMax: nat
    const ids: RequestIdGenerator
    const localTracks: LocalTrackMap
    var localMaxRequestId: nat
    var handshakeDone: bool
    var failed: bool
    var sent: seq<Msg>                // written to the control stream
    var read: nat
    ghost var unsent: map<nat, Kind>  // IDs held by application goroutines
    ghost var faults: set<Fault>

    ghost predicate Valid()
      reads localTracks
    {
      localTracks.Valid()
    }

    ghost function Footprint(): set<object>
      reads localTracks
    {
      {this, ids, localTracks} + localTracks.all.Values
    }

    ghost function View(): SessionState
      reads Footprint(), localTracks
    {
      SessionState(perspective, ids.View(), initialMax, localMaxRequestId, handshakeDone, failed, unsent,
                   localTracks.View(), sent, read, faults)
    }

    constructor (p: Perspective, initialMax: nat)
      ensures Valid() && fresh(Footprint()) && View() == Start(p, initialMax)
    {
      perspective, this.initialMax := p, initialMax;
      ids := new RequestIdGenerator(if p.Client? then 0 else 1, 0, 2);
      localTracks := new LocalTrackMap();
      localMaxRequestId, handshakeDone, failed, read := initialMax, false, false, 0;
      sent := if p.Client? then [ClientSetup(initialMax)] else [];
      unsent, faults := map[], {};
    }

    // ----- Application calls -----

    /** An ID, or -1 when the peer's credit is used up. */
    method GetRequestId(k: Kind) returns (id: int)
      requires Valid()
      modifies Footprint()
      ensures Valid() && localTracks.all == old(localTracks.all)
      ensures View() == Allocate(old(View()), k)
      ensures var was := old(ids.View());
        if was.id < was.max then id == was.id && unsent == old(unsent)[was.id := k] && sent == old(sent)
        else id == -1 && unsent == old(unsent) && sent == old(sent) + [RequestsBlocked(was.max)]
      ensures ids.max == old(ids.max) && ids.id == old(ids.id) + if id == -1 then 0 else ids.interval
    {
      var r := ids.NextId();
      match r
      case Blocked(max) =>
        sent := sent + [RequestsBlocked(max)];
        id := -1;
      case Issued(i) =>
        unsent := unsent[i := k];
        id := i;
    }

    /** The request of an ID taken earlier, written by the goroutine that holds it. */
    method WriteRequest(id: nat, k: Kind, namespaceOk: bool)
      requires Valid() && id in unsent && unsent[id] == k
      modifies this
      ensures Valid() && localTracks.all == old(localTracks.all)
      ensures View() == SendRequest(old(View()), id, namespaceOk)
      ensures unsent == old(unsent) - {id} && sent == old(sent) + [Request(k, id, namespaceOk)]
    {
      unsent := unsent - {id};
      sent := sent + [Request(k, id, namespaceOk)];
    }

    // ----- Response writers -----

    ghost predicate Holds(w: ResponseWriter)
      reads localTracks
    {
      w.track.requestId in localTracks.all && localTracks.all[w.track.requestId] == w.track
    }

    /** The session's part of Accept. */
    method AcceptId(id: nat, k: Kind) returns (ok: bool)
      requires Valid() && id in localTracks.all && localTracks.all[id].kind == k
      modifies this`sent, localTracks`pending, localTracks`open
      ensures Valid() && localTracks.all == old(localTracks.all)
      ensures View() == UseWriter(old(View()), id, Accept)
      ensures ok == (id in old(localTracks.View()).pending)
    {
      ok := localTracks.Confirm(id);
      sent := sent + if ok then [Ok(k, id)] else [];
    }

    method AcceptRequest(w: ResponseWriter) returns (ok: bool)
      requires Valid() && Holds(w)
      modifies Footprint(), w
      ensures Valid() && localTracks.all == old(localTracks.all)
      ensures View() == UseWriter(old(View()), w.track.requestId, Accept) && w.handled
      ensures ok == (w.track.requestId in old(localTracks.pending))
      ensures sent == old(sent) + if ok then [Ok(w.track.kind, w.track.requestId)] else []
      ensures ok ==> w.track.requestId in localTracks.open && w.track.requestId !in localTracks.pending
    {
      w.handled := true;
      ok := AcceptId(w.track.requestId, w.track.kind);
    }

    /** The session's part of Reject. */
    method RejectId(id: nat, k: Kind) returns (ok: bool)
      requires Valid() && id in localTracks.all && localTracks.all[id].kind == k
      modifies this`sent, localTracks`pending
      ensures Valid() && localTracks.all == old(localTracks.all)
      ensures View() == UseWriter(old(View()), id, Reject)
      ensures ok == (id in old(localTracks.View()).pending)
    {
      ok := localTracks.RejectPending(id);
      sent := sent + if ok then [Error(k, id)] else [];
    }

    method RejectRequest(w: ResponseWriter) returns (ok: bool)
      requires Valid() && Holds(w)
      modifies Footprint(), w
      ensures Valid() && localTracks.all == old(localTracks.all)
      ensures View() == UseWriter(old(View()), w.track.requestId, Reject) && w.handled
      ensures ok == (w.track.requestId in old(localTracks.pending))
      ensures sent == old(sent) + if ok then [Error(w.track.kind, w.track.requestId)] else []
      ensures w.track.requestId !in localTracks.pending && localTracks.open == old(localTracks.open)
    {
      w.handled := true;
      ok := RejectId(w.track.requestId, w.track.kind);
    }

    method CancelContext(w: ResponseWriter, c: Cause)
      requires Valid() && Holds(w)
      modifies w.track
      ensures Valid() && localTracks.all == old(localTracks.all)
      ensures View() == old(View()).(tracks := CancelTrack(old(localTracks.View()), w.track.requestId, c))
    {
      ghost var was, id := localTracks.View(), w.track.requestId;
      w.track.CancelWith(c);
      assert localTracks.View().all == was.all[id := Cancel(was.all[id], c)];
    }

    method CloseTrack(w: ResponseWriter) returns (ok: bool)
      requires Valid() && Holds(w)
      modifies Footprint()
      ensures Valid() && localTracks.all == old(localTracks.all)
      ensures View() == UseWriter(old(View()), w.track.requestId, CloseWithError)
      ensures var id := w.track.requestId;
        && ok == (w.track.kind.Subscribe? && (id in old(localTracks.pending) || id in old(localTracks.open)))
        && sent == old(sent) + (if ok then [SubscribeDone(id, old(w.track.subgroupCount))] else [])
        && (w.track.kind.Subscribe? ==>
              && id !in localTracks.pending && id !in localTracks.open && w.track.cause.Some?
              && (old(w.track.cause).Some? ==> w.track.cause == old(w.track.cause)))
    {
      ok := false;
      if w.track.kind.Subscribe? {
        CancelContext(w, SubscriptionEnded);
        ok := FinishSubscription(w.track.requestId, w.track.subgroupCount);
      } else {
        assert sent + [] == sent;
      }
    }

    method FinishSubscription(id: nat, streams: nat) returns (ok: bool)
      requires Valid()
      modifies this, localTracks
      ensures Valid() && localTracks.all == old(localTracks.all)
      ensures var was := old(View());
        View() == if was.tracks.Live(id)
                  then Write(was.(tracks := Remove(was.tracks, id)), [SubscribeDone(id, streams)])
                  else was.(tracks := Remove(was.tracks, id))
      ensures ok == old(localTracks.View()).Live(id)
    {
      var lt := localTracks.Delete(id);
      ok := lt != null;
      if ok {
        sent := sent + [SubscribeDone(id, streams)];
      }
    }

    method OpenStream(w: ResponseWriter, streamOpens: bool) returns (ok: bool)
      requires Valid() && Holds(w)
      modifies Footprint()
      ensures Valid() && localTracks.all == old(localTracks.all)
      ensures View() == UseWriter(old(View()), w.track.requestId, OpenSubgroup(streamOpens))
      ensures ok == (w.track.kind.Subscribe? && old(w.track.cause) == None && streamOpens)
      ensures w.track.subgroupCount == old(w.track.subgroupCount) + if ok then 1 else 0
      ensures sent == old(sent) && localTracks.pending == old(localTracks.pending)
      ensures localTracks.open == old(localTracks.open)
    {
      ok := false;
      if w.track.kind.Subscribe? {
        ghost var was, id := localTracks.View(), w.track.requestId;
        ok := w.track.OpenSubgroup(streamOpens);
        assert localTracks.View().all == was.all[id := w.track.View()];
      }
      assert sent + [] == sent;
    }

    /** One use of a response writer, by a handler or long after. */
    method Use(w: ResponseWriter, a: Action) returns (ok: bool)
      requires Valid() && Holds(w)
      modifies Footprint(), w
      ensures Valid() && localTracks.all == old(localTracks.all)
      ensures View() == UseWriter(old(View()), w.track.requestId, a)
      ensures w.handled == (old(w.handled) || a.Accept? || a.Reject?)
      ensures var id, pending := w.track.requestId, w.track.requestId in old(localTracks.pending);
        match a
        case Accept =>
          && ok == pending && sent == old(sent) + (if pending then [Ok(w.track.kind, id)] else [])
          && (pending ==> id in localTracks.open && id !in localTracks.pending)
        case Reject =>
          && ok == pending && sent == old(sent) + (if pending then [Error(w.track.kind, id)] else [])
          && id !in localTracks.pending && localTracks.open == old(localTracks.open)
        case CloseWithError =>
          && ok == (w.track.kind.Subscribe? && (pending || id in old(localTracks.open)))
          && sent == old(sent) + (if ok then [SubscribeDone(id, old(w.track.subgroupCount))] else [])
          && (ok ==> id !in localTracks.pending && id !in localTracks.open && w.track.cause.Some?)
        case OpenSubgroup(streamOpens) =>
          && ok == (w.track.kind.Subscribe? && old(w.track.cause) == None && streamOpens)
          && w.track.subgroupCount == old(w.track.subgroupCount) + (if ok then 1 else 0) && sent == old(sent)
    {
      match a
      case Accept => ok := AcceptRequest(w);
      case Reject => ok := RejectRequest(w);
      case CloseWithError => ok := CloseTrack(w);
      case OpenSubgroup(streamOpens) => ok := OpenStream(w, streamOpens);
    }

    /** The handler's actions in order. */
    method RunHandler(w: ResponseWriter, script: seq<Action>)
      requires Valid() && Holds(w)
      modifies Footprint(), w
      ensures Valid() && localTracks.all == old(localTracks.all)
      ensures var (tracks, out) := Handle(old(localTracks.View()), w.track.requestId, script);
        View() == Write(old(View()).(tracks := tracks), out)
      ensures w.handled == (old(w.handled) || Handled(script))
      decreases |script|
    {
      ghost var s0 := View();
      if script == [] {
        assert sent + [] == sent;
      } else {
        var ok := Use(w, script[0]);
        ghost var s1 := View();
        RunHandler(w, script[1..]);
        HandledSplit(script);
        OneThenRest(s0, s1, w.track.requestId, script);
      }
    }

    // ----- The control-stream reader -----

    /** Admission of a track request; `admitted` is null when it is refused. */
    method AddLocalTrack(lt: LocalTrack) returns (r: Admission)
      requires Valid() && lt.View() == Track(lt.kind, 0, None)
      modifies this, localTracks
      ensures Valid() && (r.Added? ==> lt.requestId in localTracks.all && localTracks.all[lt.requestId] == lt)
      ensures localTracks.all == if r.Added? then old(localTracks.all)[lt.requestId := lt] else old(localTracks.all)
      ensures var was, id := old(View()), lt.requestId;
        var grown := Write(was.(localMax := Grow(was.localMax, id)), GrowMessages(was.localMax, id));
        if id >= was.localMax then r.MaxRefused? && View() == was
        else if was.tracks.Live(id) then r.DuplicateRefused? && View() == grown
        else r.Added? && View() == grown.(tracks := Add(was.tracks, id, lt.kind))
      ensures r.MaxRefused? <==> lt.requestId >= old(localMaxRequestId)
      ensures var grows := !r.MaxRefused? && lt.requestId >= old(localMaxRequestId) / 2;
        && localMaxRequestId == (if grows then 2 * old(localMaxRequestId) else old(localMaxRequestId))
        && sent == old(sent) + (if grows then [MaxRequestId(2 * old(localMaxRequestId))] else [])
    {
      if lt.requestId >= localMaxRequestId {
        return MaxRefused;
      }
      var oldMax := localMaxRequestId;
      if lt.requestId >= oldMax / 2 {
        var newMax := 2 * oldMax;
        localMaxRequestId := newMax;
        sent := sent + [MaxRequestId(newMax)];
      } else {
        assert sent + [] == sent;
      }
      var ok := localTracks.AddPending(lt);
      return if ok then Added else DuplicateRefused;
    }

    /** The handler runs; a request it left unanswered is rejected. */
    method ServeRequest(lt: LocalTrack, script: seq<Action>)
      requires Valid() && lt.requestId in localTracks.all && localTracks.all[lt.requestId] == lt
      modifies Footprint()
      ensures Valid() && localTracks.all == old(localTracks.all)
      ensures var (tracks, out, handled) := Serve(old(localTracks.View()), lt.requestId, script);
        View() == Write(old(View()).(tracks := tracks, failed := old(failed) || !handled), out)
    {
      ghost var s0 := View();
      var w := new ResponseWriter(lt);
      RunHandler(w, script);
      ServeIsHandleThenReject(s0, View(), lt.requestId, script);
      FinishHandling(w);
    }

    /** What the session does once the handler has returned. */
    method FinishHandling(w: ResponseWriter)
      requires Valid() && Holds(w)
      modifies Footprint(), w
      ensures Valid() && localTracks.all == old(localTracks.all)
      ensures var was, id := old(View()), w.track.requestId;
        View() == if old(w.handled) then was
                  else UseWriter(was, id, Reject).(failed := was.failed || id !in was.tracks.pending)
    {
      if !w.handled {
        var ok := RejectRequest(w);
        failed := failed || !ok;
      }
    }

    method Refuse(k: Kind, id: nat, ghost f: Fault)
      requires Valid()
      modifies this, localTracks`pending
      ensures Valid() && localTracks.all == old(localTracks.all)
      ensures View() == SessionModel.Refuse(old(View()), k, id, f)
    {
      faults := faults + {f};
      if k.Subscribe? {
        sent := sent + [Error(k, id)];
      } else {
        RefuseFetch(k, id);
      }
    }

    /** The rejection of a pending fetch; an ID that is not pending gets no answer. */
    method RejectFetch(k: Kind, id: nat)
      requires Valid()
      modifies this`sent, localTracks`pending
      ensures Valid() && localTracks.all == old(localTracks.all)
      ensures var was := old(View());
        View() == if id in was.tracks.pending
                  then Write(was.(tracks := was.tracks.(pending := was.tracks.pending - {id})), [Error(k, id)])
                  else was
    {
      var ok := localTracks.RejectPending(id);
      if ok {
        sent := sent + [Error(k, id)];
      }
    }

    method RefuseFetch(k: Kind, id: nat)
      requires Valid()
      modifies this`sent, this`failed, localTracks`pending
      ensures Valid() && localTracks.all == old(localTracks.all)
      ensures View() == SessionModel.RefuseFetch(old(View()), k, id)
    {
      RejectFetch(k, id);
      failed := true;
    }

    /** onSubscribe and onFetch. */
    method OnTrackRequest(k: Kind, id: nat, namespaceOk: bool, script: seq<Action>)
      requires Valid()
      modifies Footprint()
      ensures Valid() && fresh(Footprint() - old(Footprint()))
      ensures View() == SessionModel.OnTrackRequest(old(View()), k, id, namespaceOk, script)
    {
      if !namespaceOk {
        failed := true;
      } else {
        AdmitAndServe(k, id, script);
      }
    }

    method AdmitAndServe(k: Kind, id: nat, script: seq<Action>)
      requires Valid()
      modifies Footprint()
      ensures Valid() && fresh(Footprint() - old(Footprint()))
      ensures View() == SessionModel.OnTrackRequest(old(View()), k, id, true, script)
    {
      var lt := new LocalTrack(id, k);
      ServeTrack(lt, script);
    }

    method ServeTrack(lt: LocalTrack, script: seq<Action>)
      requires Valid() && lt.View() == Track(lt.kind, 0, None)
      modifies Footprint(), lt
      ensures Valid() && Footprint() <= old(Footprint()) + {lt}
      ensures View() == SessionModel.OnTrackRequest(old(View()), lt.kind, lt.requestId, true, script)
    {
      var r := AddLocalTrack(lt);
      if r.Added? {
        ServeRequest(lt, script);
      } else {
        Refuse(lt.kind, lt.requestId, if r.MaxRefused? then MaxViolated else DuplicateId);
      }
    }

    method CancelPeer(lt: LocalTrack)
      requires Valid() && lt.requestId in localTracks.all && localTracks.all[lt.requestId] == lt
      modifies lt
      ensures Valid() && localTracks.all == old(localTracks.all)
      ensures localTracks.View() == CancelTrack(old(localTracks.View()), lt.requestId, PeerUnsubscribed)
    {
      ghost var was, id := localTracks.View(), lt.requestId;
      lt.CancelWith(PeerUnsubscribed);
      assert localTracks.View().all == was.all[id := Cancel(was.all[id], PeerUnsubscribed)];
    }

    /** onUnsubscribe and onFetchCancel. */
    method OnCancel(id: nat, drop: bool)
      requires Valid()
      modifies Footprint()
      ensures Valid() && localTracks.all == old(localTracks.all)
      ensures View() == SessionModel.OnCancel(old(View()), id, drop)
    {
      var lt := localTracks.FindById(id);
      if lt == null {
        failed := true;
        return;
      }
      CancelPeer(lt);
      if drop {
        var gone := localTracks.Delete(id);
      }
    }

    method RaiseLimit(v: nat)
      requires Valid()
      modifies this, ids
      ensures Valid() && localTracks.all == old(localTracks.all)
      ensures View() == SessionModel.RaiseLimit(old(View()), v)
    {
      var ok := ids.RaiseMax(v);
      if !ok {
        faults := faults + {MaxDecreased};
        failed := true;
      }
    }

    method OnClientSetup(max: nat)
      requires Valid() && !failed
      modifies this, ids
      ensures Valid() && localTracks.all == old(localTracks.all)
      ensures View() == SessionModel.OnClientSetup(old(View()), max)
    {
      if perspective != Server {
        faults := faults + {WrongSetup};
        failed := true;
        return;
      }
      if max > 0 {
        RaiseLimit(max);
        if failed {
          return;
        }
      }
      sent := sent + [ServerSetup(SERVER_SETUP_MAX)];
      handshakeDone := true;
    }

    method OnServerSetup(max: nat)
      requires Valid() && !failed
      modifies this, ids
      ensures Valid() && localTracks.all == old(localTracks.all)
      ensures View() == SessionModel.OnServerSetup(old(View()), max)
    {
      if perspective != Client {
        faults := faults + {WrongSetup};
        failed := true;
        return;
      }
      RaiseLimit(max);
      if !failed {
        handshakeDone := true;
      }
    }

    method Dispatch(m: Msg, c: Choice)
      requires Valid() && !failed && handshakeDone
      modifies Footprint()
      ensures Valid() && fresh(Footprint() - old(Footprint()))
      ensures View() == Receive(old(View()), m, c)
    {
      match m
      case Request(k, id, namespaceOk) => OnRequest(k, id, namespaceOk, c);
      case Unsubscribe(id) => OnCancel(id, false);
      case FetchCancel(id) => OnCancel(id, true);
      case _ => DispatchRest(m, c);
    }

    method DispatchRest(m: Msg, c: Choice)
      requires Valid() && !failed && handshakeDone && !m.Request? && !m.Unsubscribe? && !m.FetchCancel?
      modifies this, ids
      ensures Valid() && localTracks.all == old(localTracks.all)
      ensures View() == Receive(old(View()), m, c)
    {
      if m.ClientSetup? || m.ServerSetup? {
        WrongMessage(WrongSetup);
      } else if m.MaxRequestId? {
        RaiseLimit(m.max);
      } else if m.SubscribeUpdate? {
        var lt := localTracks.FindById(m.id);
        failed := lt == null;
      } else if !m.RequestsBlocked? {
        failed := !c.ok;
      }
    }

    method OnRequest(k: Kind, id: nat, namespaceOk: bool, c: Choice)
      requires Valid() && !failed && handshakeDone
      modifies Footprint()
      ensures Valid() && fresh(Footprint() - old(Footprint()))
      ensures View() == Receive(old(View()), Request(k, id, namespaceOk), c)
    {
      if k.Subscribe? || k.Fetch? {
        OnTrackRequest(k, id, namespaceOk, c.script);
      } else if k.Announce? && !namespaceOk {
        failed := true;
      } else {
        sent := sent + Replies(k, id, c.replies);
      }
    }

    method WrongMessage(ghost f: Fault)
      requires Valid()
      modifies this
      ensures Valid() && localTracks.all == old(localTracks.all)
      ensures View() == Fail(Blame(old(View()), f))
    {
      faults := faults + {f};
      failed := true;
    }

    /** receive: one control message handled to the end by the reader. */
    method ReceiveMessage(m: Msg, c: Choice)
      requires Valid() && !failed
      modifies Footprint()
      ensures Valid() && fresh(Footprint() - old(Footprint()))
      ensures View() == Receive(old(View()), m, c)
    {
      if handshakeDone {
        Dispatch(m, c);
        return;
      }
      match m
      case ClientSetup(max) => OnClientSetup(max);
      case ServerSetup(max) => OnServerSetup(max);
      case _ => WrongMessage(EarlyMessage);
    }
  }

  datatype Admission = Added | MaxRefused | DuplicateRefused

  lemma HandledSplit(script: seq<Action>)
    requires script != []
    ensures Handled(script) == (script[0].Accept? || script[0].Reject? || Handled(script[1..]))
  {
    if Handled(script) {
      var i :| 0 <= i < |script| && (script[i].Accept? || script[i].Reject?);
      assert i > 0 ==> script[1..][i - 1] == script[i];
    }
    if Handled(script[1..]) {
      var i :| 0 <= i < |script[1..]| && (script[1..][i].Accept? || script[1..][i].Reject?);
      assert script[i + 1] == script[1..][i];
    }
  }

  lemma ServeIsHandleThenReject(s0: SessionState, s1: SessionState, id: nat, script: seq<Action>)
    requires id in s0.tracks.all
    requires var (t1, out) := Handle(s0.tracks, id, script); s1 == Write(s0.(tracks := t1), out)
    ensures var (tracks, out, handled) := Serve(s0.tracks, id, script);
      && id in s1.tracks.all
      && Write(s0.(tracks := tracks), out) == (if Handled(script) then s1 else UseWriter(s1, id, Reject))
      && handled == (Handled(script) || id in s1.tracks.pending)
  {
    var out, more := Handle(s0.tracks, id, script).1, Act(s1.tracks, id, Reject).1;
    assert s0.sent + out + more == s0.sent + (out + more);
  }

  lemma OneThenRest(s0: SessionState, s1: SessionState, id: nat, script: seq<Action>)
    requires id in s0.tracks.all && script != [] && s1 == UseWriter(s0, id, script[0])
    ensures var (t1, rest) := Handle(s1.tracks, id, script[1..]);
      var (t, out) := Handle(s0.tracks, id, script);
      Write(s1.(tracks := t1), rest) == Write(s0.(tracks := t), out)
  {
    var out, rest := Act(s0.tracks, id, script[0]).1, Handle(s1.tracks, id, script[1..]).1;
    assert s0.sent + out + rest == s0.sent + (out + rest);
  }
}
