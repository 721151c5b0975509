/** One session endpoint as a value: its request-ID credit, the tracks it serves, and the control
    messages it has written.  Each function below is one atomic piece of session.go. */
module SessionModel {
  import opened RequestIds
  import opened SessionTypes
  import opened LocalTracks

  /** Error paths that a conforming peer should never trigger. */
  datatype Fault = MaxViolated | DuplicateId | MaxDecreased | EarlyMessage | WrongSetup

  datatype SessionState = SessionState(
    perspective: Perspective,
    ids: Generator,               // credit granted by the peer
    initialMax: nat,              // InitialMaxRequestID
    localMax: nat,                // credit granted to the peer
    ready: bool,                  // handshake done
    failed: bool,                 // the control-stream reader has returned an error
    unsent: map<nat, Kind>,       // IDs taken from the generator, request not written yet
    tracks: Tracks,
    sent: seq<Msg>,               // everything written to the control stream
    read: nat,                    // how many of the peer's messages have been received
    faults: set<Fault>)

  /** The limit the server always advertises in SERVER_SETUP. */
  const SERVER_SETUP_MAX := 100

  function Start(p: Perspective, initialMax: nat): SessionState {
    SessionState(
      p, Generator(if p.Client? then 0 else 1, 0, 2), initialMax, initialMax, false, false,
      map[], Tracks({}, {}, map[]), if p.Client? then [ClientSetup(initialMax)] else [], 0, {})
  }

  function Write(s: SessionState, out: seq<Msg>): SessionState {
    s.(sent := s.sent + out)
  }

  function Fail(s: SessionState): SessionState {
    s.(failed := true)
  }

  function Blame(s: SessionState, f: Fault): SessionState {
    s.(faults := s.faults + {f})
  }

  // ----- Requests leaving this endpoint -----

  /** getRequestID, called by an application goroutine. */
  function Allocate(s: SessionState, k: Kind): SessionState {
    match Next(s.ids)
    case (_, Blocked(max)) => Write(s, [RequestsBlocked(max)])
    case (ids, Issued(id)) => s.(ids := ids, unsent := s.unsent[id := k])
  }

  /** The request itself is written later, in any order among the goroutines. */
  function SendRequest(s: SessionState, id: nat, namespaceOk: bool): SessionState {
    if id in s.unsent
    then Write(s.(unsent := s.unsent - {id}), [Request(s.unsent[id], id, namespaceOk)])
    else s
  }

  /** A response writer used by the application after its handler returned. */
  function UseWriter(s: SessionState, id: nat, a: Action): SessionState {
    if id in s.tracks.all then
      var (tracks, out) := Act(s.tracks, id, a);
      Write(s.(tracks := tracks), out)
    else s
  }

  // ----- Requests arriving -----

  /** The credit after admitting `id`: doubled once an ID from its upper half arrives. */
  function Grow(localMax: nat, id: nat): nat {
    if id >= localMax / 2 then 2 * localMax else localMax
  }

  /** The MAX_REQUEST_ID message that goes with `Grow`. */
  function GrowMessages(localMax: nat, id: nat): seq<Msg> {
    if id >= localMax / 2 then [MaxRequestId(2 * localMax)] else []
  }

  /** addLocalTrack and then the handler.  `k` is Subscribe or Fetch: a refused SUBSCRIBE is answered
      with an error, a refused FETCH ends the session. */
  function OnTrackRequest(s: SessionState, k: Kind, id: nat, namespaceOk: bool, script: seq<Action>): SessionState {
    if !namespaceOk then Fail(s)
    else if id >= s.localMax then Refuse(s, k, id, MaxViolated)
    else
      var s1 := Write(s.(localMax := Grow(s.localMax, id)), GrowMessages(s.localMax, id));
      if s.tracks.Live(id) then Refuse(s1, k, id, DuplicateId)
      else
        var (tracks, out, handled) := Serve(Add(s.tracks, id, k), id, script);
        Write(s1.(tracks := tracks, failed := s1.failed || !handled), out)
  }

  function Refuse(s: SessionState, k: Kind, id: nat, f: Fault): SessionState {
    if k.Subscribe? then Write(Blame(s, f), [Error(k, id)]) else RefuseFetch(Blame(s, f), k, id)
  }

  /** A refused FETCH goes through the rejection of a pending one, then ends the session either way. */
  function RefuseFetch(s: SessionState, k: Kind, id: nat): SessionState {
    if id in s.tracks.pending
    then Fail(Write(s.(tracks := s.tracks.(pending := s.tracks.pending - {id})), [Error(k, id)]))
    else Fail(s)
  }

  /** UNSUBSCRIBE cancels the track; FETCH_CANCEL also drops it from the table. */
  function OnCancel(s: SessionState, id: nat, drop: bool): SessionState {
    if s.tracks.Live(id) && id in s.tracks.all then
      var cancelled := CancelTrack(s.tracks, id, PeerUnsubscribed);
      s.(tracks := if drop then Remove(cancelled, id) else cancelled)
    else Fail(s)
  }

  // ----- Credit and handshake -----

  function RaiseLimit(s: SessionState, v: nat): SessionState {
    match SetMax(s.ids, v)
    case (_, false) => Fail(Blame(s, MaxDecreased))
    case (ids, true) => s.(ids := ids)
  }

  function OnClientSetup(s: SessionState, max: nat): SessionState {
    if !s.perspective.Server? then Fail(Blame(s, WrongSetup))
    else
      var s1 := if max > 0 then RaiseLimit(s, max) else s;
      if s1.failed then s1 else Write(s1, [ServerSetup(SERVER_SETUP_MAX)]).(ready := true)
  }

  function OnServerSetup(s: SessionState, max: nat): SessionState {
    if !s.perspective.Client? then Fail(Blame(s, WrongSetup))
    else
      var s1 := RaiseLimit(s, max);
      if s1.failed then s1 else s1.(ready := true)
  }

  /** What the environment decides while one message is handled: the handler's actions, the replies
      an announcement handler writes (true for OK), and whether the requester-side bookkeeping of a
      reply, modelled separately, returns without error. */
  datatype Choice = Choice(script: seq<Action>, replies: seq<bool>, ok: bool)

  function Replies(k: Kind, id: nat, oks: seq<bool>): seq<Msg> {
    seq(|oks|, i requires 0 <= i < |oks| => if oks[i] then Ok(k, id) else Error(k, id))
  }

  /** receive: dispatch of one control message by the sequential reader. */
  function Receive(s: SessionState, m: Msg, c: Choice): SessionState {
    if !s.ready then
      match m
      case ClientSetup(max) => OnClientSetup(s, max)
      case ServerSetup(max) => OnServerSetup(s, max)
      case _ => Fail(Blame(s, EarlyMessage))
    else
      match m
      case ClientSetup(_) => Fail(Blame(s, WrongSetup))
      case ServerSetup(_) => Fail(Blame(s, WrongSetup))
      case MaxRequestId(max) => RaiseLimit(s, max)
      case RequestsBlocked(_) => s
      case Request(k, id, namespaceOk) =>
        if IsTrack(k) then OnTrackRequest(s, k, id, namespaceOk, c.script)
        else if k.Announce? && !namespaceOk then Fail(s)
        else Write(s, Replies(k, id, c.replies))
      case SubscribeUpdate(id) => if s.tracks.Live(id) then s else Fail(s)
      case Unsubscribe(id) => OnCancel(s, id, false)
      case FetchCancel(id) => OnCancel(s, id, true)
      case _ => if c.ok then s else Fail(s)
  }
}
