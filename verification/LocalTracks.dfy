/** The tracks an endpoint serves: the pending/open table and the tracks themselves, which response
    writers keep using after the table has dropped them. */
module LocalTracks {
  import opened SessionTypes

  /** Why a local track stopped accepting streams. */
  datatype Cause = SubscriptionEnded | PeerUnsubscribed

  datatype Track = Track(kind: Kind, streams: nat, cause: Option<Cause>)

  /** `all` holds every track ever created, by request ID. */
  datatype Tracks = Tracks(pending: set<nat>, open: set<nat>, all: map<nat, Track>) {
    predicate Live(id: nat) {
      id in pending || id in open
    }
  }

  /** Cancelling a context keeps the first cause. */
  function Cancel(t: Track, c: Cause): Track {
    if t.cause.None? then t.(cause := Some(c)) else t
  }

  function Add(t: Tracks, id: nat, k: Kind): Tracks {
    t.(pending := t.pending + {id}, all := t.all[id := Track(k, 0, None)])
  }

  function Remove(t: Tracks, id: nat): Tracks {
    t.(pending := t.pending - {id}, open := t.open - {id})
  }

  function CancelTrack(t: Tracks, id: nat, c: Cause): Tracks
    requires id in t.all
  {
    t.(all := t.all[id := Cancel(t.all[id], c)])
  }

  /** What a handler may do through its response writer, while it runs or long after. */
  datatype Action = Accept | Reject | CloseWithError | OpenSubgroup(streamOpens: bool)

  /** One use of the response writer of `id`: the tracks afterwards and the messages written.
      A fetch writer only knows Accept and Reject. */
  function Act(t: Tracks, id: nat, a: Action): (r: (Tracks, seq<Msg>))
    requires id in t.all
    ensures r.0.all.Keys == t.all.Keys
    ensures forall i :: 0 <= i < |r.1| ==> IsReply(r.1[i]) && r.1[i].id == id
  {
    var track := t.all[id];
    match a
    case Accept =>
      if id in t.pending
      then (Remove(t, id).(open := t.open + {id}), [Ok(track.kind, id)])
      else (t, [])
    case Reject =>
      if id in t.pending then (t.(pending := t.pending - {id}), [Error(track.kind, id)]) else (t, [])
    case CloseWithError =>
      if !track.kind.Subscribe? then (t, [])
      else
        var t1 := CancelTrack(t, id, SubscriptionEnded);
        if t.Live(id) then (Remove(t1, id), [SubscribeDone(id, track.streams)]) else (t1, [])
    case OpenSubgroup(streamOpens) =>
      if track.kind.Subscribe? && track.cause.None? && streamOpens
      then (t.(all := t.all[id := track.(streams := track.streams + 1)]), [])
      else (t, [])
  }

  /** A handler's actions, one after the other. */
  function Handle(t: Tracks, id: nat, script: seq<Action>): (r: (Tracks, seq<Msg>))
    requires id in t.all
    ensures r.0.all.Keys == t.all.Keys
    ensures forall i :: 0 <= i < |r.1| ==> IsReply(r.1[i]) && r.1[i].id == id
    decreases |script|
  {
    if script == [] then (t, [])
    else
      var (t1, out) := Act(t, id, script[0]);
      var (t2, rest) := Handle(t1, id, script[1..]);
      (t2, out + rest)
  }

  predicate Handled(script: seq<Action>) {
    exists i :: 0 <= i < |script| && (script[i].Accept? || script[i].Reject?)
  }

  /** The handler runs; a request it left unanswered is rejected.  Rejecting an ID that is no longer
      pending is an error (the flag) that ends the session. */
  function Serve(t: Tracks, id: nat, script: seq<Action>): (r: (Tracks, seq<Msg>, bool))
    requires id in t.all
    ensures r.0.all.Keys == t.all.Keys
    ensures forall i :: 0 <= i < |r.1| ==> IsReply(r.1[i]) && r.1[i].id == id
  {
    var (t1, out) := Handle(t, id, script);
    if Handled(script) then (t1, out, true)
    else
      var (t2, more) := Act(t1, id, Reject);
      (t2, out + more, id in t1.pending)
  }
}
