/** Vocabulary shared by the models of a session's two sides. */
module SessionTypes {

  datatype Option<+T> = None | Some(value: T)

  datatype Perspective = Client | Server

  /** Requests that carry a request ID. */
  datatype Kind = Subscribe | Fetch | Announce | SubscribeAnnounces

  /** SUBSCRIBE and FETCH are the requests for which the receiver keeps a local track. */
  predicate IsTrack(k: Kind) {
    k.Subscribe? || k.Fetch?
  }

  /** Control messages, with the fields the session logic looks at. */
  datatype Msg =
    | ClientSetup(max: nat)
    | ServerSetup(max: nat)
    | MaxRequestId(max: nat)
    | RequestsBlocked(limit: nat)
    | Request(kind: Kind, id: nat, namespaceOk: bool)
    | Ok(kind: Kind, id: nat)
    | Error(kind: Kind, id: nat)
    | SubscribeDone(id: nat, streams: nat)
    | SubscribeUpdate(id: nat)
    | Unsubscribe(id: nat)
    | FetchCancel(id: nat)

  /** Messages that raise the receiver's request-ID limit. */
  predicate IsGrant(m: Msg) {
    m.ClientSetup? || m.ServerSetup? || m.MaxRequestId?
  }

  /** OK or ERROR replies to SUBSCRIBE and FETCH. */
  predicate IsAnswer(m: Msg) {
    (m.Ok? || m.Error?) && IsTrack(m.kind)
  }

  predicate IsReply(m: Msg) {
    m.Ok? || m.Error? || m.SubscribeDone?
  }
}
