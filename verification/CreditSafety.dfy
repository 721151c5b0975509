/** Credit safety: in every run, the limit an endpoint works under never exceeds what its peer will
    admit, limits travel in nondecreasing order, and no request ID is used twice. */
module CreditSafety {
  import opened RequestIds
  import opened SessionTypes
  import opened LocalTracks
  import opened SessionModel
  import opened Network
  import opened CreditMoves

  // ----- The handshake comes first -----

  function OwnSetup(s: SessionState): Msg {
    if s.perspective.Client? then ClientSetup(s.initialMax) else ServerSetup(SERVER_SETUP_MAX)
  }

  predicate IsSetup(m: Msg) {
    m.ClientSetup? || m.ServerSetup?
  }

  ghost predicate Greets(s: SessionState) {
    && (!s.ready ==> Fresh(s))
    && (s.ready ==> s.read > 0 && s.sent != [])
    && (s.sent != [] ==> s.sent[0] == OwnSetup(s))
    && (forall i :: 0 < i < |s.sent| ==> !IsSetup(s.sent[i]))
  }

  lemma MoveGreets(s: SessionState, peer: SessionState, m: Move, t: SessionState)
    requires Greets(s) && Greets(peer) && s.perspective != peer.perspective
    requires Moves(s, peer.sent, m, t)
    ensures Greets(t)
  {
  }

  // ----- Request IDs -----

  /** IDs already taken from the generator. */
  ghost predicate Taken(s: SessionState, id: nat) {
    id < s.ids.id && id < s.ids.max && id % 2 == s.ids.id % 2
  }

  /** No ID is used twice, and every ID used is below the credit received so far. */
  ghost predicate IdsUnique(s: SessionState) {
    && s.ids.interval == 2
    && (forall id :: id in s.unsent ==> Taken(s, id))
    && (forall i :: 0 <= i < |s.sent| && s.sent[i].Request? ==> Taken(s, s.sent[i].id) && s.sent[i].id !in s.unsent)
    && (forall i, j :: 0 <= i < j < |s.sent| && s.sent[i].Request? && s.sent[j].Request?
          ==> s.sent[i].id != s.sent[j].id)
  }

  lemma MoveUnique(s: SessionState, inbox: seq<Msg>, m: Move, t: SessionState)
    requires IdsUnique(s) && Moves(s, inbox, m, t)
    requires !s.ready ==> Fresh(s)
    ensures IdsUnique(t)
  {
  }

  // ----- Credit -----

  /** The IDs `r` admits lie below this bound.  Clients use even IDs, so a server whose own limit is 99
      still admits every ID below the 100 it advertises. */
  function Reach(r: SessionState): nat {
    if r.perspective.Server? && r.localMax == SERVER_SETUP_MAX - 1 then SERVER_SETUP_MAX else r.localMax
  }

  /** `r` grants credit to `s`: what `s` has read is at most its limit, what is still in flight is at
      least that, the order is nondecreasing, and nothing exceeds what `r` admits. */
  ghost predicate Grants(s: SessionState, r: SessionState) {
    && s.read <= |r.sent| && s.ids.max <= Reach(r)
    && (forall i :: 0 <= i < |r.sent| && IsGrant(r.sent[i]) ==>
          && r.sent[i].max <= Reach(r)
          && (if i < s.read then r.sent[i].max <= s.ids.max else s.ids.max <= r.sent[i].max))
    && (forall i, j :: 0 <= i < j < |r.sent| && IsGrant(r.sent[i]) && IsGrant(r.sent[j])
          ==> r.sent[i].max <= r.sent[j].max)
  }

  /** Reading a grant: what was read before is at most the new limit, what is in flight at least. */
  lemma GrantRead(s: SessionState, r: SessionState, t: SessionState)
    requires Grants(s, r) && s.read < |r.sent| && IsGrant(r.sent[s.read])
    requires t.read == s.read + 1 && t.ids.max == r.sent[s.read].max
    ensures Grants(t, r)
  {
  }

  lemma GrantsWhenSenderMoves(s: SessionState, r: SessionState, m: Move, t: SessionState)
    requires Grants(s, r) && Moves(s, r.sent, m, t)
    requires Greets(s) && Greets(r) && s.perspective != r.perspective
    ensures Grants(t, r)
  {
    if m.Raise? || m.Greet? {
      GrantRead(s, r, t);
    } else {
      assert t.ids.max == s.ids.max;
    }
  }

  /** Messages appended to a log: of these only `out[0]`, if anything, grants credit. */
  lemma GrantsAppend(s: SessionState, r: SessionState, u: SessionState, out: seq<Msg>)
    requires Grants(s, r) && u.sent == r.sent + out && Reach(r) <= Reach(u)
    requires forall i :: 0 < i < |out| ==> !IsGrant(out[i])
    requires out != [] && IsGrant(out[0]) ==>
      out[0].max <= Reach(u) && (r.sent == [] || Reach(r) <= out[0].max) && s.ids.max <= out[0].max
    ensures Grants(s, u)
  {
    assert forall i :: |r.sent| <= i < |u.sent| ==> u.sent[i] == out[i - |r.sent|];
  }

  lemma GrantsWhenReceiverMoves(s: SessionState, r: SessionState, m: Move, u: SessionState)
    requires Grants(s, r) && Moves(r, s.sent, m, u)
    requires Greets(s) && Greets(r) && s.perspective != r.perspective
    requires r.perspective.Server? ==> SERVER_SETUP_MAX - 1 <= r.initialMax
    ensures Grants(s, u)
  {
    match m
    case Talk(out) => GrantsPlain(s, r, u, out);
    case Read(out) => GrantsPlain(s, r, u, out);
    case Emit(id, ok) => GrantsPlain(s, r, u, [Request(r.unsent[id], id, ok)]);
    case Greet(_) => GrantsWhenGreeting(s, r, m, u);
    case Admit(_, _) => GrantsWhenAdmitting(s, r, m, u);
    case _ => GrantsPlain(s, r, u, []);
  }

  lemma GrantsPlain(s: SessionState, r: SessionState, u: SessionState, out: seq<Msg>)
    requires Grants(s, r) && u.sent == r.sent + out && u.perspective == r.perspective && u.localMax == r.localMax
    requires forall i :: 0 <= i < |out| ==> !IsGrant(out[i])
    ensures Grants(s, u)
  {
    GrantsAppend(s, r, u, out);
  }

  lemma GrantsWhenAdmitting(s: SessionState, r: SessionState, m: Move, u: SessionState)
    requires Grants(s, r) && m.Admit? && AllPlain(m.out)
    requires u.perspective == r.perspective && u.localMax == Grow(r.localMax, m.id)
    requires u.sent == r.sent + GrowMessages(r.localMax, m.id) + m.out && m.id < r.localMax
    ensures Grants(s, u)
  {
    var out := GrowMessages(r.localMax, m.id) + m.out;
    assert u.sent == r.sent + out;
    GrantsAppend(s, r, u, out);
  }

  /** The setup message is a server's first message, and its first grant. */
  lemma GrantsWhenGreeting(s: SessionState, r: SessionState, m: Move, u: SessionState)
    requires Grants(s, r) && Greets(s) && Fresh(r) && u.perspective == r.perspective && u.localMax == r.localMax
    requires r.perspective.Server? ==> SERVER_SETUP_MAX - 1 <= r.initialMax
    requires u.sent == r.sent + if r.perspective.Server? then [ServerSetup(SERVER_SETUP_MAX)] else []
    ensures Grants(s, u)
  {
    GrantsAppend(s, r, u, if r.perspective.Server? then [ServerSetup(SERVER_SETUP_MAX)] else []);
  }
}
