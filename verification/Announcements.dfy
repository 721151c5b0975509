/** The tables of outgoing announcements and announcement subscriptions.  Their pending IDs are the sets that
    OutgoingRequests follows through a run. */
module Announcements {

  class Announcement {
    const requestId: nat
    const namespace: seq<string>

    constructor (requestId: nat, namespace: seq<string>)
      ensures this.requestId == requestId && this.namespace == namespace
    {
      this.requestId, this.namespace := requestId, namespace;
    }
  }

  /** Each entry is filed under its own ID. */
  ghost predicate Filed(m: map<nat, Announcement>) {
    forall id :: id in m ==> m[id].requestId == id
  }

  ghost predicate Announces(m: map<nat, Announcement>, namespace: seq<string>) {
    exists id :: id in m && m[id].namespace == namespace
  }

  /** One entry with the namespace was taken out. */
  ghost predicate OneGone(was: map<nat, Announcement>, now: map<nat, Announcement>, namespace: seq<string>) {
    exists id :: id in was && was[id].namespace == namespace && now == was - {id}
  }

  /** The search visits the entries in any order. */
  method Find(m: map<nat, Announcement>, namespace: seq<string>) returns (a: Announcement?)
    requires Filed(m)
    ensures a == null <==> !Announces(m, namespace)
    ensures a != null ==> a.requestId in m && m[a.requestId] == a && a.namespace == namespace
  {
    var rest := m.Keys;
    while rest != {}
      invariant rest <= m.Keys
      invariant forall id :: id in m && id !in rest ==> m[id].namespace != namespace
      decreases |rest|
    {
      var id :| id in rest;
      if m[id].namespace == namespace {
        return m[id];
      }
      rest := rest - {id};
    }
    return null;
  }

  class AnnouncementMap {
    var pending: map<nat, Announcement>
    var announcements: map<nat, Announcement>

    ghost predicate Valid()
      reads this
    {
      Filed(pending) && Filed(announcements)
    }

    constructor ()
      ensures Valid() && pending == map[] && announcements == map[]
    {
      pending, announcements := map[], map[];
    }

    method Add(a: Announcement)
      requires Valid()
      modifies this`pending
      ensures Valid() && pending == old(pending)[a.requestId := a]
    {
      pending := pending[a.requestId := a];
    }

    /** Only the first confirmation of an ID finds the announcement. */
    method ConfirmAndGet(id: nat) returns (a: Announcement?)
      requires Valid()
      modifies this
      ensures Valid() && id !in pending && pending == old(pending) - {id}
      ensures a == null <==> id !in old(pending)
      ensures announcements == if a == null then old(announcements) else old(announcements)[id := a]
      ensures a != null ==> a == old(pending)[id]
    {
      if id !in pending {
        return null;
      }
      a := pending[id];
      pending := pending - {id};
      announcements := announcements[id := a];
    }

    method Reject(id: nat) returns (a: Announcement?)
      requires Valid()
      modifies this`pending
      ensures Valid() && id !in pending && pending == old(pending) - {id}
      ensures a == null <==> id !in old(pending)
      ensures a != null ==> a == old(pending)[id]
    {
      if id !in pending {
        return null;
      }
      a := pending[id];
      pending := pending - {id};
    }

    /** A pending announcement of the namespace goes first, a confirmed one otherwise. */
    method Delete(namespace: seq<string>) returns (ok: bool)
      requires Valid()
      modifies this
      ensures Valid() && ok == (Announces(old(pending), namespace) || Announces(old(announcements), namespace))
      ensures if Announces(old(pending), namespace) then OneGone(old(pending), pending, namespace)
              else pending == old(pending)
      ensures if ok && !Announces(old(pending), namespace) then OneGone(old(announcements), announcements, namespace)
              else announcements == old(announcements)
    {
      var a := Find(pending, namespace);
      if a != null {
        pending := pending - {a.requestId};
        return true;
      }
      a := Find(announcements, namespace);
      if a != null {
        announcements := announcements - {a.requestId};
        return true;
      }
      return false;
    }
  }

  class AnnouncementSubscriptionMap {
    var subscriptions: map<nat, Announcement>

    constructor ()
      ensures subscriptions == map[]
    {
      subscriptions := map[];
    }

    method Add(a: Announcement)
      modifies this
      ensures subscriptions == old(subscriptions)[a.requestId := a]
    {
      subscriptions := subscriptions[a.requestId := a];
    }

    /** Only the first reply for an ID finds the subscription. */
    method DeleteById(id: nat) returns (a: Announcement?)
      modifies this
      ensures subscriptions == old(subscriptions) - {id} && id !in subscriptions
      ensures a == null <==> id !in old(subscriptions)
      ensures a != null ==> a == old(subscriptions)[id]
    {
      a := if id in subscriptions then subscriptions[id] else null;
      subscriptions := subscriptions - {id};
    }
  }
}
