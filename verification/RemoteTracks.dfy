/** The tracks an endpoint has asked for: pending and confirmed requests and the alias index. */
module RemoteTracks {
  import opened SessionTypes

  /** A track is identified by the request ID it was created with. */
  datatype Table = Table(pending: set<nat>, open: set<nat>, aliases: map<nat, nat>)

  function AddPending(t: Table, id: nat): (Table, bool) {
    if id in t.pending || id in t.open then (t, false) else (t.(pending := t.pending + {id}), true)
  }

  function Confirm(t: Table, id: nat): (Table, bool) {
    if id in t.pending then (t.(pending := t.pending - {id}, open := t.open + {id}), true) else (t, false)
  }

  function RejectPending(t: Table, id: nat): (Table, bool) {
    if id in t.pending then (t.(pending := t.pending - {id}), true) else (t, false)
  }

  function SetAlias(t: Table, id: nat, alias: nat): (Table, bool) {
    if alias in t.aliases then (t, false) else (t.(aliases := t.aliases[alias := id]), true)
  }

  function FindById(t: Table, id: nat): Option<nat> {
    if id in t.open || id in t.pending then Some(id) else None
  }

  /** What one lookup holding the lock throughout would answer. */
  function FindByAlias(t: Table, alias: nat): Option<nat> {
    if alias in t.aliases then FindById(t, t.aliases[alias]) else None
  }

  /** A track object of the application; its channels and buffer are modelled elsewhere. */
  class RemoteTrack {
    const requestId: nat

    constructor (requestId: nat)
      ensures this.requestId == requestId
    {
      this.requestId := requestId;
    }
  }

  class RemoteTrackMap {
    var pending: map<nat, RemoteTrack>
    var open: map<nat, RemoteTrack>
    var trackAliasToRequestId: map<nat, nat>

    /** Each entry is the track created for its ID. */
    ghost predicate Valid()
      reads this
    {
      && (forall id :: id in pending ==> pending[id].requestId == id)
      && (forall id :: id in open ==> open[id].requestId == id)
    }

    ghost function View(): Table
      reads this
    {
      Table(pending.Keys, open.Keys, trackAliasToRequestId)
    }

    constructor ()
      ensures Valid() && View() == Table({}, {}, map[])
    {
      pending, open, trackAliasToRequestId := map[], map[], map[];
    }

    method Add(rt: RemoteTrack) returns (ok: bool)
      requires Valid()
      modifies this
      ensures Valid() && (View(), ok) == AddPending(old(View()), rt.requestId)
      ensures ok == (rt.requestId !in old(pending) && rt.requestId !in old(open))
      ensures pending == if ok then old(pending)[rt.requestId := rt] else old(pending)
      ensures open == old(open) && trackAliasToRequestId == old(trackAliasToRequestId)
    {
      var id := rt.requestId;
      if id in pending || id in open {
        return false;
      }
      pending := pending[id := rt];
      assert View().pending == old(View()).pending + {id};
      return true;
    }

    /** The confirmed track is the very object that was added. */
    method Open(id: nat) returns (rt: RemoteTrack?)
      requires Valid()
      modifies this
      ensures Valid() && (View(), rt != null) == Confirm(old(View()), id)
      ensures rt == null <==> id !in old(pending)
      ensures rt != null ==> rt == old(pending)[id] && open == old(open)[id := rt]
      ensures pending == old(pending) - {id} && trackAliasToRequestId == old(trackAliasToRequestId)
      ensures rt == null ==> open == old(open)
    {
      if id !in pending {
        return null;
      }
      rt := pending[id];
      pending := pending - {id};
      open := open[id := rt];
      assert View().open == old(View()).open + {id};
    }

    method Reject(id: nat) returns (rt: RemoteTrack?)
      requires Valid()
      modifies this
      ensures Valid() && (View(), rt != null) == RejectPending(old(View()), id)
      ensures rt == null <==> id !in old(pending)
      ensures rt != null ==> rt == old(pending)[id]
      ensures pending == old(pending) - {id} && open == old(open)
      ensures trackAliasToRequestId == old(trackAliasToRequestId)
    {
      if id !in pending {
        return null;
      }
      rt := pending[id];
      pending := pending - {id};
    }

    method Alias(id: nat, alias: nat) returns (ok: bool)
      requires Valid()
      modifies this
      ensures Valid() && (View(), ok) == SetAlias(old(View()), id, alias)
      ensures ok == (alias !in old(trackAliasToRequestId)) && pending == old(pending) && open == old(open)
      ensures trackAliasToRequestId ==
        if ok then old(trackAliasToRequestId)[alias := id] else old(trackAliasToRequestId)
    {
      if alias in trackAliasToRequestId {
        return false;
      }
      trackAliasToRequestId := trackAliasToRequestId[alias := id];
      return true;
    }

    method FindByRequestId(id: nat) returns (rt: RemoteTrack?)
      requires Valid()
      ensures rt == null <==> id !in open && id !in pending
      ensures rt != null ==> rt == if id in open then open[id] else pending[id]
    {
      if id in open {
        return open[id];
      }
      if id in pending {
        return pending[id];
      }
      return null;
    }
  }
}
