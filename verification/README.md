# Verified model of the MoQ transport session, wire codec, telemetry and path scheduler

The project models four parts of a Media over QUIC transport library and proves properties of them that hold
in every run or for every input.

**The session** (`RequestIds`, `SessionModel`, `Network`, `Protocol`, `CreditSupply`, `ExactAnswers`,
`ExactDone`, `OutgoingRequests`, `ReplyValues`, `JointReplies`, `StreamAccounting`). Two endpoints exchange control messages over two FIFO
channels. Request IDs are bounded by credit the peer grants and doubles as IDs arrive. `SessionModel` gives each
handler as a function on the session's state, and `SessionEffects` states the effect of every message field by field;
`SessionObject` has the same session as objects updated in place, every method tied to its function; `Network` joins two of them, with taking an ID and writing the request as separate events, so that a
statement about every `Run` is one about every interleaving. Main results: credit safety, its closed form and
when it runs dry, unique IDs, the exact answer of every request and the exact SUBSCRIBE_DONE of every subscription over
whole runs (`ExactDone`), exact stream counts, callers that are told what the peer replied (`ReplyValues`), and, with
the requester's tables joined to the network in `JointReplies`, exactly when a reply ends a session.

**The wire codec** (`Varint`, `Fields`, `SubscribeCodec`, `SubscribeOkCodec`, `FetchCodec`, `PlainBodies`,
`ControlMessages`, `Framing`, `ObjectStream`). Encoders and parsers are separate functions, as in the source.
The theorems say what arrives for *every* message, list of messages and list of objects, and exactly when it
arrives unchanged; `WireFormat`, `WireFrames` and `ObjectFormat` say which bytes these are, with every number written
out. `WireLoops`, `MessageBuffers`, `ControlStream`, `ObjectParser` and `ObjectBuffer` hold the
loops, cursors, readers and buffers, proved to compute these functions. `Channel` joins the two parts: what the
session model treats as a FIFO of messages is what framing and parsing deliver, and `MessageEffects` and `SessionInput`
say what each message, as it is on the wire, does to a session.

**Telemetry** (`PacketWindow`, `PacketVerdicts`, `DoubledPackets`, `SampleSlices`, `Telemetry`). A ring of
the last N packets with an index by packet number, and time-stamped slices pruned on every event, are compared with
the full history, for every stream of events.

**The round-robin scheduler** (`RoundRobin`), with its fairness over runs of any length.

Where the code and its documentation or intention part, the model follows the code:

- The server advertises a limit of 100 whatever its `InitialMaxRequestID` is (session.go:1027). `NoFaultsIff`
  and `TracksRefillIff` give the initial limits for which the protocol works.
- Announcements and announcement subscriptions use request IDs but earn no credit; `AnnouncementsEarnNothing`,
  `AnnouncementsStarve`.
- A handler that closes a subscription before answering it leaves the peer without OK or ERROR; `ServeAnswers`,
  `AnsweredUnlessClosed`.
- `subgroupCount` is incremented without a lock (local_track.go:131); `DoneExactIff`, `OverlapLosesCount`.
- SUBSCRIBE_OK writes nanoseconds and reads milliseconds (internal/wire/subscribe_ok_message.go:58, 87);
  `ExpiresSurvivesIff`.
- ANNOUNCE_CANCEL is written with the type of ANNOUNCE (internal/wire/announce_cancel_message.go:28-30);
  `CodeArrives`.
- SUBSCRIBE_UPDATE accepts a forward byte of 2, SUBSCRIBE does not.
- A joining FETCH carries no namespace, and the session ends over that (session.go:1233-1235); `JoiningFetchEnds`.
- The extension header reader stops only with an error (internal/wire/kvp_list.go:78-84), and that error is end
  of input, which a stream reader takes for the end of the stream; `ExtensionsEndStream`, `ObjectsRoundTripIff`.
- The connection tracer records each packet twice, and packets of all number spaces in one ring
  (quicmoq/logging.go:302-329). `DoubledRefinesIff` says exactly which feedback is lost: that about the oldest packet of
  a window of odd size, and that about a number used again within a window, as number 0 is at the start of every
  connection; `OddWindowMisses`, `EvenWindowMisses`, `EvenWindowRefines`, `DoubledMetrics`.
- SUBSCRIBE_OK is built without a track alias (session.go:613-619), and the receiver refuses an alias it has bound
  (session.go:1137-1140), so an endpoint gets one subscription and its session ends over the next;
  `OneSubscriptionPerSession`, `AliasEndsReaderIff`.
- A caller that gives up leaves its request without an entry, and the answer then ends the session;
  `AnswerEndsReaderIff`.
- The scheduler's counter wraps at 2^64, which is fair only to numbers of paths that divide it; `FairForeverIff`.

`dafny verify dfyconfig.toml` checks the whole project.

## Model

| member | source | states |
|---|---|---|
| `RequestIds.RequestIdGenerator.constructor` | request_id.go:17-23 | the generator starts with the given ID, limit and interval |
| `RequestIds.RequestIdGenerator.NextId` | request_id.go:25-34 | hands out the current ID and steps by the interval, or answers the limit and changes nothing |
| `RequestIds.RequestIdGenerator.RaiseMax` | request_id.go:36-44 | a limit is replaced unless the new one is lower, which is refused and changes nothing |
| `RequestIds.IssuedAreConsecutive` | request_id.go:25-44 | over any run of calls, refused ones included, the i-th ID handed out is the first plus i intervals and is below the limit in force at the end |
| `RequestIds.MaxGrows` | request_id.go:36-44 | no run of calls lowers the limit |
| `SessionObject.LocalTrack.constructor` | local_track.go:35-50 | a new track has no stream and no closing cause |
| `SessionObject.LocalTrack.CancelWith` | local_track.go:135-145 | the first closing cause is kept |
| `SessionObject.LocalTrack.OpenSubgroup` | local_track.go:123-133 | a stream is counted exactly when the track is not closed and the connection opens it |
| `SessionObject.LocalTrackMap.AddPending` | local_track_map.go:21-32 | a track enters the pending table unless its ID is pending or open, and then nothing changes |
| `SessionObject.LocalTrackMap.FindById` | local_track_map.go:34-42 | finds the track of an ID exactly when it is pending or open |
| `SessionObject.LocalTrackMap.Delete` | local_track_map.go:44-57 | removes the ID from both tables and returns the track exactly when it was in one |
| `SessionObject.LocalTrackMap.Confirm` | local_track_map.go:59-69 | moves a pending entry to the open table; an ID that is not pending changes nothing |
| `SessionObject.LocalTrackMap.RejectPending` | local_track_map.go:71-80 | removes a pending entry and tells whether there was one |
| `SessionObject.Session.constructor` | session.go:110-124 | the state before the handshake: even IDs for the client, odd for the server, no credit yet, CLIENT_SETUP written by the client |
| `SessionObject.Session.GetRequestId` | session.go:303-315 | the caller gets exactly the generator's current ID, which it then holds, or -1 and REQUESTS_BLOCKED with the limit, exactly when that ID is at or above the limit; every other part of the session is as before |
| `SessionObject.Session.WriteRequest` | session.go:522-536 | writes the request of an ID taken earlier, which is then no longer held |
| `SessionObject.Session.AcceptRequest` | session.go:596-627 | marks the request handled; if it was pending it is now open and one OK is written, otherwise nothing is written and the caller gets an error |
| `SessionObject.Session.RejectRequest` | session.go:629-639 | marks the request handled; if it was pending it no longer is and one ERROR is written, otherwise nothing is written; the caller is told |
| `SessionObject.Session.AcceptId` | session.go:596-627 | one OK if the request was pending, which opens it; otherwise an error and no change |
| `SessionObject.Session.RejectId` | session.go:629-639 | one ERROR if the request was pending, which drops it; otherwise an error and no change |
| `SessionObject.Session.CancelContext` | local_track.go:135-145 | records the closing cause of the writer's track and touches no other track |
| `SessionObject.Session.CloseTrack` | local_track.go:135-141 | if the writer's subscription was pending or open, one SUBSCRIBE_DONE with its ID and its stream count before the call is written, and the ID is in neither table; otherwise nothing is written and the caller gets an error; either way the track has a closing cause, the first one |
| `SessionObject.Session.FinishSubscription` | session.go:647-658 | SUBSCRIBE_DONE is written exactly when the ID was still in the table, which it leaves; otherwise the caller gets an error |
| `SessionObject.Session.OpenStream` | subscribe_response_writer.go:92-94 | the writer's own count grows by one exactly when its subscription has no closing cause and the connection opens the stream, and the caller is told; no message is written and no other track touched |
| `SessionObject.Session.Use` | subscribe_response_writer.go:60-98 | each of the four uses by its effect: Accept of a pending request writes one OK and opens it, Reject writes one ERROR and drops it, CloseWithError of a subscription in the table writes one SUBSCRIBE_DONE with the count so far and takes it out, OpenSubgroup counts one stream of a subscription that is not closed; any other use writes nothing and returns an error |
| `SessionObject.Session.RunHandler` | session.go:1119-1121 | a handler's actions, in order, have the effect of the specification of the whole script |
| `SessionObject.Session.AddLocalTrack` | session.go:271-291 | an ID at or above the limit is refused with no change; otherwise an ID of at least half the limit doubles it and writes MAX_REQUEST_ID with the double, even when the ID then turns out a duplicate |
| `SessionObject.Session.ServeRequest` | session.go:1112-1129 | the handler runs and a request it left unanswered is rejected; a rejection that finds nothing pending ends the session |
| `SessionObject.Session.FinishHandling` | session.go:1122-1129 | nothing happens after a handled request; otherwise the request is rejected |
| `SessionObject.Session.Refuse` | session.go:1099-1111 | a refused SUBSCRIBE is answered with an error and the session goes on; a refused FETCH ends it |
| `SessionObject.Session.RefuseFetch` | session.go:1247-1252 | an entry that is pending under the refused ID is rejected, then the session ends either way |
| `SessionObject.Session.RejectFetch` | session.go:1247-1252 | an ERROR for a fetch that is pending, which it then no longer is |
| `SessionObject.Session.OnTrackRequest` | session.go:1073-1130 | the whole handling of one SUBSCRIBE or FETCH equals its specification, allocated objects included |
| `SessionObject.Session.AdmitAndServe` | session.go:1095-1130 | the same for a request whose namespace is acceptable |
| `SessionObject.Session.ServeTrack` | session.go:1095-1130 | admission, then the handler or the refusal, with the new track as the only object the session takes over |
| `SessionObject.Session.OnCancel` | session.go:1212-1219 | the track of a live ID is cancelled with the cause of the peer, and dropped for FETCH_CANCEL; an unknown ID ends the session |
| `SessionObject.Session.CancelPeer` | local_track.go:143-145 | the track is cancelled with the cause of the peer unless it has one, and no other track is touched |
| `SessionObject.Session.RaiseLimit` | session.go:1064-1066 | a lower limit ends the session, any other is taken over |
| `SessionObject.Session.OnClientSetup` | session.go:1015-1036 | the server takes the client's limit if there is one, advertises 100 and is ready |
| `SessionObject.Session.OnServerSetup` | session.go:1038-1055 | the client takes the server's limit and is ready |
| `SessionObject.Session.Dispatch` | session.go:937-991 | after the handshake each message has the effect of its handler |
| `SessionObject.Session.DispatchRest` | session.go:939-952 | setup messages, limits, REQUESTS_BLOCKED and SUBSCRIBE_UPDATE after the handshake |
| `SessionObject.Session.OnRequest` | session.go:945-980 | SUBSCRIBE and FETCH are served; an announcement with a bad namespace ends the session, any other is answered by its handler |
| `SessionObject.Session.ReceiveMessage` | session.go:924-991 | one received message changes the session exactly as the specification of `receive` says, before and after the handshake |
| `Answers.ActTidy` | session.go:596-658 | any use of a response writer, at any time, keeps the log free of a second OK or ERROR and of a second SUBSCRIBE_DONE for an ID |
| `Answers.HandleTidy` | session.go:1119-1121 | the same for any sequence of uses |
| `Answers.ServePending` | session.go:1122-1129 | whatever the handler did, the request has left the pending table when `receive` returns, and no other request has |
| `Answers.TrackRequestServing` | session.go:1073-1130 | serving a request not seen before answers that ID only and leaves nothing pending |
| `Answers.StepServing` | session.go:924-991 | every step of an endpoint keeps: nothing pending between messages, at most one answer each, answers and tracks only for requests that arrived |
| `Answers.NextIsNew` | local_track_map.go:21-32 | the next request of a peer that never reuses an ID is unknown to the track table, so the duplicate-ID branch is not taken |
| `Answers.StepPersists` | local_track.go:135-154 | no step removes a track, lowers its stream count, or changes a track that has a closing cause |
| `CreditMoves.StepMove` | session.go:271-291 | every step of an endpoint is, for the purposes of credit, one of eight moves: in particular an admitted ID is below the limit, and the limit and the MAX_REQUEST_ID messages move together |
| `CreditSafety.MoveGreets` | session.go:924-935 | every move keeps: an endpoint's first message is its setup message and no later one is |
| `CreditSafety.MoveUnique` | request_id.go:25-34 | every move keeps: IDs taken or written are distinct and below the credit received |
| `CreditSafety.GrantsWhenSenderMoves` | request_id.go:36-44 | a sender's move keeps the order: limits read are at most its own, limits in flight at least |
| `CreditSafety.GrantsWhenReceiverMoves` | session.go:271-285 | a receiver's move keeps it as well: what it grants is at least everything granted before and at most what it admits |
| `Protocol.RunSound` | session.go:924-991 | invariants of every run of the two endpoints, whatever limits they start with |
| `Protocol.NoFaultsIff` | session.go:1022-1030 | in no run an ID is refused as above the limit, met as a duplicate, a limit decreases or a setup message is out of place: exactly when the server's own initial limit is at least 99 |
| `Protocol.LowLimitRefuses` | session.go:272-274 | with a lower server limit some run of a conforming client is refused |
| `Protocol.CreditSafe` | session.go:271-291 | in every run, for every interleaving: IDs held <= sender's limit <= each limit in flight, in sending order <= receiver's limit, in both directions, and no fault |
| `Protocol.RequestIdsUnique` | session.go:114 | in every run no two requests of a session, written or still held by a caller, share an ID, on one side or across the two |
| `Protocol.OneAnswerPerRequest` | session.go:596-658 | in every run each incoming SUBSCRIBE or FETCH gets at most one OK or ERROR and each track at most one SUBSCRIBE_DONE, sent by a closed track with its stream count, opening and counting a stream taken as one step (StreamAccounting.DoneExactIff has the steps of the unguarded counter); nothing is pending between messages |
| `ExactAnswers.ServeAnswers` | session.go:1112-1130 | an admitted request gets exactly one OK or ERROR, the one its handler's first Accept or Reject asks for, exactly when its handler does not close a subscription before that; then SUBSCRIBE_DONE goes out first and no answer at all |
| `ExactAnswers.AnswerIsFinal` | session.go:1073-1130 | in every run, whatever came before and whatever comes after, each SUBSCRIBE or FETCH that is read has exactly the answer this gives, from the moment the reader is done with it and for ever; refused requests included |
| `ExactAnswers.AnsweredUnlessClosed` | subscribe_response_writer.go:60-98 | so over every run an admitted request has one answer, or none if it is a SUBSCRIBE whose handler uses CloseWithError first |
| `ExactAnswers.StepKeepsAnswers` | session.go:596-658 | no step of an endpoint, late uses of a response writer included, adds an answer for an ID it has already read |
| `ExactDone.CountIsOpened` | local_track.go:123-133 | in every run, each track's count is the number of streams that uses of its own writer have opened, by the handler and by later events |
| `ExactDone.LateCloseDone` | local_track.go:135-141 | in every run, whatever came before and whatever comes after: a subscription that its writer closes while it is in the table leaves it and has exactly one SUBSCRIBE_DONE, for ever, whose count is the number of streams the writer had opened |
| `ExactDone.HandlerCloseDone` | session.go:1112-1130 | in every run: a subscription whose handler closes it while it is in the table has exactly one SUBSCRIBE_DONE, for ever, with the streams the handler opened before; any other has none when its handler is done |
| `ExactDone.DonesAreCloses` | session.go:647-658 | in every run the SUBSCRIBE_DONE messages for an ID are exactly those of closes that find the subscription in the table, and at most one: no other event writes one |
| `ExactDone.StepAdds` | subscribe_response_writer.go:92-98 | each step adds to the count and to the SUBSCRIBE_DONE messages of an ID exactly what the uses of its own writer in that step come to |
| `SessionEffects.TrackRequestAdmitted` | session.go:271-291 | a new ID below the limit gets a track of the request's kind and no other track changes; an ID of at least half the limit doubles it and MAX_REQUEST_ID is written first |
| `SessionEffects.TrackRequestAboveLimit` | session.go:1099-1111 | an ID at or above the limit: a SUBSCRIBE is answered with an error and leaves no track, a FETCH ends the session |
| `SessionEffects.TrackRequestDuplicate` | session.go:286-289 | an ID still in the table: the limit grows as for a new one, then a SUBSCRIBE is answered with an error and a FETCH ends the session |
| `SessionEffects.CancelEffect` | session.go:1212-1219 | UNSUBSCRIBE n gives track n the peer's cause unless it has one, FETCH_CANCEL n also takes it out of the table; every other track stays, and an ID that is not in the table ends the session |
| `SessionEffects.LimitEffect` | request_id.go:36-44 | MAX_REQUEST_ID v makes the limit v; a v below the limit ends the session and leaves it |
| `SessionEffects.SetupEffect` | session.go:1015-1036 | the setup messages before the handshake: the server takes the limit it reads and answers with 100, the client takes the limit it reads |
| `SessionEffects.ServedFails` | session.go:1122-1129 | serving an admitted request ends the session exactly when its handler closes a subscription and neither accepts nor rejects it |
| `SessionEffects.UnexpectedEffect` | session.go:924-937 | a setup message of the wrong side or at the wrong time, and any other message before the handshake, ends the session and changes nothing else |
| `Protocol.CancelledForGood` | local_track.go:123-154 | over the rest of any run a cancelled track opens no stream and keeps its first cause |
| `Protocol.HandshakeRun` | session.go:993-1055 | the states after the handshake: the client may use IDs below 100 whatever the server enforces |
| `CreditSupply.CreditIsLeast` | session.go:276-279 | the credit granted for a largest ID is the least doubling of the initial limit that has this ID in its lower half |
| `CreditSupply.CreditBounded` | session.go:276-279 | credit does not run away: it stays at the initial limit or at most 4 times the largest ID plus 2 |
| `CreditSupply.GrowKeepsCredit` | session.go:276-279 | one admission keeps the closed form, so the order in which IDs arrive does not matter |
| `CreditSupply.DrainedCredit` | session.go:271-285 | in every drained state of every run, a request can be issued exactly when its ID is below the closed form of the largest SUBSCRIBE or FETCH ID sent |
| `CreditSupply.CreditInEveryState` | session.go:271-285 | in every state of every run each admitted ID is below half the limit, and the limit is at most the initial one or 4 times that ID plus 2 |
| `CreditSupply.TracksNeverBlock` | request_id.go:25-34 | with a server limit of 99 to 197 and a client limit of at least 2, a side whose last request was a SUBSCRIBE or FETCH can issue another once the network is drained |
| `CreditSupply.TrackSessionsNeverBlock` | request_id.go:25-34 | over whole runs with those limits: a side that takes IDs for SUBSCRIBE and FETCH only, abandons none and has written every request is never blocked once the network is drained |
| `CreditSupply.TracksRefillIff` | session.go:1027 | over all limits, that holds in every run exactly for client limits of at least 2 and server limits of 99 to 197: a lower server limit refuses what it advertises, a higher one does not double before the client is blocked |
| `CreditSupply.AnnouncementsStarve` | session.go:1352-1378 | whatever the limits, a run in which the client sends announcements and nothing else, each ID it takes among them, leaves it blocked with nothing in flight |
| `CreditSupply.AnnouncementsEarnNothing` | session.go:1352-1378 | in every run in which the client makes no SUBSCRIBE or FETCH, whatever the limits, the client gets 50 IDs and no more; drained, it is blocked exactly when it has used them |
| `RemoteTracks.RemoteTrackMap.Add` | remote_track_map.go:54-80 | a track enters the pending table unless its ID is already in a table |
| `RemoteTracks.RemoteTrackMap.Open` | remote_track_map.go:92-102 | the confirmed track is the object that was pending, and the only change to the open table |
| `RemoteTracks.RemoteTrackMap.Reject` | remote_track_map.go:104-113 | takes a pending track out of the table, and only that |
| `RemoteTracks.RemoteTrackMap.Alias` | remote_track_map.go:82-90 | binds an alias once; a bound alias is refused and stays as it is |
| `RemoteTracks.RemoteTrackMap.FindByRequestId` | remote_track_map.go:41-52 | finds exactly the IDs in one of the tables and returns that table's entry, the open one first |
| `OutgoingRequests.OneValuePerChannel` | session.go:1132-1179 | for arbitrary replies and any interleaving of callers with the reader: every response channel is written at most once and never when full, no table sees a duplicate, and a track returned by Subscribe or Fetch is open |
| `OutgoingRequests.AliasIndexSound` | remote_track_map.go:82-90 | in every run the alias index is injective and names open tracks only |
| `OutgoingRequests.SplitLookupIsAtomic` | remote_track_map.go:115-123 | a lookup that drops the lock between its two reads returns what one atomic lookup would, at the time of either read |
| `OutgoingRequests.OneSubscription` | session.go:613-619 | since SUBSCRIBE_OK is built without an alias: in every run with such replies at most one Subscribe ever gets a track, and the reader ends over a confirmed SUBSCRIBE_OK exactly when one was confirmed before |
| `ReplyValues.ValuesAreReplies` | session.go:1164-1179 | in every run, however callers and replies interleave: a value in a response channel is the verdict of a reply to that very request, and a call returns successfully only after such a reply said OK |
| `ReplyValues.ReplyGetsThere` | session.go:1132-1162 | the verdict of a reply that is waited for gets into its caller's channel; a confirmed SUBSCRIBE_OK binds its alias to the track on the way, a rejected track is in no table |
| `ReplyValues.StrayReplyFails` | session.go:1164-1168 | a reply without a pending entry ends the session and changes nothing else |
| `JointReplies.StepMatching` | session.go:596-639 | every step of an endpoint keeps: each OK or ERROR it has written has the kind of the request with that ID it has read |
| `JointReplies.JointRunSound` | session.go:937-991 | session and request tables joined, in every run: they agree on the IDs taken and the requests written, and a track request without an answer is pending exactly as long as its caller waits |
| `JointReplies.AnswerEndsReaderIff` | session.go:538-547 | between two endpoints of the library, in every run: the next OK or ERROR finds the call it answers, of its own kind, and ends the reader exactly when that call had given up waiting |
| `JointReplies.AliasEndsReaderIff` | session.go:1137-1140 | and binding the alias of a SUBSCRIBE_OK ends the reader exactly when another SUBSCRIBE_OK came before |
| `JointReplies.OneSubscriptionPerSession` | session.go:1132-1140 | so in every run at most one Subscribe of an endpoint ever gets a track |
| `OutgoingRequests.StepOnePlace` | session.go:538-547 | every step keeps each answer in one place: a pending table, the reader's hands, or the channel |
| `OutgoingRequests.StepConfirms` | session.go:1132-1140 | every step keeps OK values and aliases tied to open tracks, and neither closes a track nor rebinds an alias |
| `Announcements.Find` | announcement_map.go:8-15 | finds an entry with the namespace exactly when there is one, whatever order the entries are visited in |
| `Announcements.AnnouncementMap.Add` | announcement_map.go:31-35 | files the announcement under its ID |
| `Announcements.AnnouncementMap.ConfirmAndGet` | announcement_map.go:37-47 | moves a pending announcement to the confirmed ones; a second confirmation finds nothing |
| `Announcements.AnnouncementMap.Reject` | announcement_map.go:49-58 | takes a pending announcement out of the table |
| `Announcements.AnnouncementMap.Delete` | announcement_map.go:60-74 | removes one announcement of the namespace, a pending one first, exactly when there is one |
| `Announcements.AnnouncementSubscriptionMap.Add` | announcement_subscription_map.go:29-33 | files the subscription under its ID |
| `Announcements.AnnouncementSubscriptionMap.DeleteById` | announcement_subscription_map.go:48-54 | only the first reply for an ID finds the subscription |
| `StreamAccounting.DoneExactIff` | local_track.go:123-141 | for every schedule from a new track: the count in SUBSCRIBE_DONE is the number of streams ever opened, however the run goes on, exactly when every store of the counter found the value its call had read and no call is in progress |
| `StreamAccounting.SerialisedDoneExact` | local_track.go:123-141 | callers whose openSubgroup calls do not overlap, with close between them, get an exact count |
| `StreamAccounting.OverlapLosesCount` | local_track.go:131 | two overlapping calls can open two streams and count one |
| `StreamAccounting.DoneNeverOvercounts` | local_track.go:123-145 | in every interleaving the count is at most the streams opened, and neither it nor the first cause changes afterwards |
| `StreamAccounting.RunBounded` | local_track.go:123-145 | the invariant behind it, kept by every run |
| `Varint.EncodeParse` | internal/wire/varint_bytes.go:9-34 | parsing undoes encoding and leaves exactly what follows (section 16 of RFC 9000) |
| `Varint.ParseFits` | internal/wire/varint_bytes.go:19-34 | the value parsed, minimal or not, needs no more bytes than were consumed |
| `WireFormat.EightByte` | internal/wire/subscribe_message.go:126-128 | the eight bytes of an integer of 2^30 and above: 0xc0 in the top two bits, the highest byte first (section 16 of RFC 9000) |
| `WireFormat.FourByte` | internal/wire/subscribe_message.go:126-128 | the four bytes of an integer from 2^14 to 2^30, and 0x80 in the top two bits |
| `WireFormat.ReadFour` | internal/wire/subscribe_message.go:143-149 | four bytes whose first is 0x80 to 0xbf are read as the number in their 30 lower bits, also where fewer bytes would do |
| `WireFormat.ReadTwo` | internal/wire/subscribe_message.go:143-149 | the same for two bytes, the first 0x40 to 0x7f |
| `WireFormat.ReadEight` | internal/wire/subscribe_message.go:143-149 | the same for eight bytes, the first 0xc0 and above |
| `WireFormat.TwoByte` | internal/wire/subscribe_message.go:126-128 | the two bytes of an integer from 64 to 2^14 |
| `Fields.BlobRoundTrip` | internal/wire/varint_bytes.go:9-34 | a length-prefixed byte string is read back and what follows is left |
| `Fields.TupleFits` | internal/wire/tuple.go:38-62 | a namespace never has more elements than bytes consumed, and writing it again takes no more bytes |
| `Fields.TupleRoundTrip` | internal/wire/tuple.go:14-62 | a namespace is read back element by element and what follows is left |
| `Fields.KvpRoundTrip` | internal/wire/key_value_pair.go:35-74 | a pair is read back with the value that goes with the parity of its key |
| `Fields.ParamsFits` | internal/wire/kvp_list.go:88-105 | a counted list never has more pairs than bytes consumed, sets only the value of the right parity, and takes no more bytes when written again |
| `Fields.ParamsRoundTrip` | internal/wire/kvp_list.go:36-105 | a counted list is read back pair by pair and what follows is left |
| `Fields.VersionsRoundTrip` | internal/wire/version.go:60-85 | a version list is read back and what follows is left |
| `Fields.LocationRoundTrip` | internal/wire/location.go:10-24 | a location is read back and what follows is left |
| `WireLoops.AppendTuple` | internal/wire/tuple.go:14-21 | the loop appends exactly the encoding of the namespace |
| `WireLoops.ReadTuple` | internal/wire/tuple.go:38-62 | on any input for whose element count memory can be reserved (the program panics over a larger one) the loop ends with the parser's answer and the number of bytes it consumed |
| `WireLoops.KvpsLength` | internal/wire/kvp_list.go:27-33 | the length announced is the number of bytes the list takes |
| `WireLoops.KvpLength` | internal/wire/key_value_pair.go:24-33 | the size of a pair computed without writing it is the size written |
| `WireLoops.AppendKvp` | internal/wire/key_value_pair.go:35-42 | appends exactly the encoding of the pair |
| `WireLoops.AppendKvps` | internal/wire/kvp_list.go:47-52 | the loop appends exactly the encoding of the list |
| `WireLoops.AppendNum` | internal/wire/kvp_list.go:36-39 | appends the list with its number of pairs in front |
| `WireLoops.AppendLength` | internal/wire/kvp_list.go:42-45 | appends the list with its length in bytes in front |
| `WireLoops.ReadKvp` | internal/wire/key_value_pair.go:44-74 | on any input: the parser's answer, with a slice bound beyond the data as an outcome of its own |
| `WireLoops.ReadNum` | internal/wire/kvp_list.go:88-105 | on any input the loop ends with the parser's answer and no more pairs than bytes consumed |
| `WireLoops.AppendVersions` | internal/wire/version.go:60-66 | the loop appends exactly the encoding of the list |
| `WireLoops.ReadVersions` | internal/wire/version.go:68-85 | on any input the loop ends with the parser's answer |
| `WireLoops.AppendBlob` | internal/wire/varint_bytes.go:9-13 | appends the length and the bytes |
| `WireLoops.AppendLocation` | internal/wire/location.go:10-13 | appends group and object |
| `SubscribeCodec.SubscribeFits` | internal/wire/subscribe_message.go:143-204 | any SUBSCRIBE accepted takes no more bytes when written again and has nothing a second reading would change |
| `SubscribeCodec.SubscribeArrives` | internal/wire/subscribe_message.go:126-204 | what is read for every SUBSCRIBE that is written: the error for its group order or forward flag, or the message with its filter normalised and the fields its filter does not use dropped; `WireFormat` gives the filter numbers and the bytes |
| `WireFormat.FilterBytes` | internal/wire/subscribe_message.go:37-43 | from the filter on, byte by byte: 1 and 2 stand alone, 3 is followed by group and object, 4 by group, object and last group, every other filter type is written as 1; then the parameters |
| `WireFormat.SubscribeBytes` | internal/wire/subscribe_message.go:126-141 | ID, namespace, name, priority, group order and forward flag come before the filter, in this order |
| `WireFormat.SubscribeRead` | internal/wire/subscribe_message.go:143-204 | what is read from such bytes for filter types 1 to 4: all fields, the start location for 3 and 4 and the last group for 4 only, zeros otherwise |
| `WireFormat.FilterRefused` | internal/wire/subscribe_message.go:185-187 | filter type 0 and those above 4 are refused |
| `WireFormat.ParameterBytes` | internal/wire/key_value_pair.go:35-42 | a parameter list is its number and then each key, followed by length and bytes for an odd key and by an integer for an even one |
| `WireFormat.ParameterRead` | internal/wire/key_value_pair.go:44-74 | of each pair the value that goes with its key is read, and the other is empty |
| `WireFormat.NamespaceBytes` | internal/wire/tuple.go:14-21 | a namespace is the number of its elements and each as length and bytes |
| `MessageBuffers.AppendSubscribe` | internal/wire/subscribe_message.go:126-141 | the buffer grows by ID, namespace, name, three flags and then, by filter type: 1 or 2, that byte; 3, the byte 3, group and object; 4, the byte 4, group, object and last group; any other, the byte 1; and the parameters |
| `MessageBuffers.ReadSubscribe` | internal/wire/subscribe_message.go:143-204 | on any body the cursor ends with the parser's answer; on a body that was written, with every field, the start for filter types 3 and 4 and the last group for 4 |
| `SubscribeOkCodec.SubscribeOkArrives` | internal/wire/subscribe_ok_message.go:55-116 | what is read for every SUBSCRIBE_OK that can be written; the duration arrives as the 64-bit product with a million |
| `SubscribeOkCodec.ExpiresSurvivesIff` | internal/wire/subscribe_ok_message.go:87 | no duration but zero survives, not even through the wrap-around of the product |
| `WireFormat.SubscribeOkBytes` | internal/wire/subscribe_ok_message.go:55-67 | ID, alias, duration, group order, then 1 with the largest group and object or 0 without, then the parameters |
| `WireFormat.Milliseconds` | internal/wire/subscribe_ok_message.go:87 | the duration read is a million times the number, in a signed 64-bit integer |
| `MessageBuffers.AppendSubscribeOk` | internal/wire/subscribe_ok_message.go:55-67 | the buffer grows by exactly the encoding |
| `MessageBuffers.ReadSubscribeOk` | internal/wire/subscribe_ok_message.go:69-116 | on any body the cursor ends with the parser's answer |
| `FetchCodec.SubscribeUpdateArrives` | internal/wire/subscribe_update_message.go:40-82 | what is read for every SUBSCRIBE_UPDATE that is written |
| `MessageBuffers.AppendSubscribeUpdate` | internal/wire/subscribe_update_message.go:40-47 | the buffer grows by exactly the encoding |
| `MessageBuffers.ReadSubscribeUpdate` | internal/wire/subscribe_update_message.go:49-82 | on any body the cursor ends with the parser's answer |
| `FetchCodec.FetchArrives` | internal/wire/fetch_message.go:80-181 | what is read for every FETCH that is written: the error for its group order or type, or the message with only the fields of its form, standalone or joining |
| `WireFormat.FetchBytes` | internal/wire/fetch_message.go:80-99 | type 1 is followed by namespace, name, start and end, any other type by two integers |
| `WireFormat.FetchRead` | internal/wire/fetch_message.go:101-181 | type 1 is read with its names and places, types 2 and 3 with the two integers, and no other type is read |
| `WireFormat.FetchOkBytes` | internal/wire/fetch_ok_message.go:40-46 | FETCH_OK: ID, group order, end-of-track byte, end location, parameters |
| `WireFormat.SubscribeUpdateBytes` | internal/wire/subscribe_update_message.go:40-47 | SUBSCRIBE_UPDATE: ID, start location, end group, priority, forward flag, parameters |
| `FetchCodec.FetchFits` | internal/wire/fetch_message.go:101-181 | any FETCH accepted takes no more bytes when written again and has nothing a second reading would change |
| `MessageBuffers.AppendFetch` | internal/wire/fetch_message.go:80-99 | the buffer grows by ID, flags and type, then for type 1 namespace, name, start and end, for any other the joined ID and start, then the parameters |
| `MessageBuffers.ReadFetch` | internal/wire/fetch_message.go:101-181 | on any body the cursor ends with the parser's answer |
| `FetchCodec.FetchOkArrives` | internal/wire/fetch_ok_message.go:40-73 | what is read for every FETCH_OK that is written |
| `MessageBuffers.AppendFetchOk` | internal/wire/fetch_ok_message.go:40-46 | the buffer grows by exactly the encoding |
| `MessageBuffers.ReadFetchOk` | internal/wire/fetch_ok_message.go:48-73 | on any body the cursor ends with the parser's answer |
| `PlainBodies.FieldsRoundTrip` | internal/wire/track_status_request_message.go:33-62 | the bodies that are a list of fields (21 messages): every field is read back in order, parameters with the value their key asks for |
| `ControlMessages.CodeArrives` | internal/wire/announce_cancel_message.go:28-30 | the type written is read back as the same kind of message, except that ANNOUNCE_CANCEL is read as ANNOUNCE |
| `WireFrames.NumberFrame` | internal/wire/max_request_id_message.go:25-32 | MAX_REQUEST_ID (0x15), REQUESTS_BLOCKED (0x1a), UNSUBSCRIBE (0x0a), FETCH_CANCEL (0x17), ANNOUNCE_OK (0x07) and SUBSCRIBE_NAMESPACE_OK (0x12): the frame holds one number, and is read back so |
| `WireFrames.ErrorFrame` | internal/wire/subscribe_error_message.go:29-56 | SUBSCRIBE_ERROR (0x05), FETCH_ERROR (0x19), ANNOUNCE_ERROR (0x08) and SUBSCRIBE_NAMESPACE_ERROR (0x13): request ID, error code, reason, written and read in this order |
| `WireFrames.SubscribeDoneFrame` | internal/wire/subscribe_done_message.go:30-64 | SUBSCRIBE_DONE (0x0b): request ID, status, number of streams, reason |
| `WireFrames.NamespaceFrame` | internal/wire/unannounce_message.go:22-30 | UNANNOUNCE (0x09) and UNSUBSCRIBE_NAMESPACE (0x14): the namespace |
| `WireFrames.AnnounceFrame` | internal/wire/announce_message.go:37-59 | ANNOUNCE (0x06) and SUBSCRIBE_NAMESPACE (0x11): request ID, namespace, parameters |
| `WireFrames.AnnounceCancelFrame` | internal/wire/announce_cancel_message.go:28-56 | ANNOUNCE_CANCEL: namespace, error code, reason; written with type 0x06, read with type 0x0c |
| `WireFrames.ClientSetupFrame` | internal/wire/client_setup_message.go:33-53 | CLIENT_SETUP (0x20): the number of versions, the versions, the parameters |
| `WireFrames.ServerSetupFrame` | internal/wire/server_setup_message.go:32-51 | SERVER_SETUP (0x21): the version and the parameters |
| `WireFrames.GoAwayFrame` | internal/wire/go_away_message.go:28-37 | GOAWAY (0x10): the new URI |
| `WireFrames.TrackStatusRequestFrame` | internal/wire/track_status_request_message.go:33-62 | the status request (0x0d): request ID, namespace, track name, parameters |
| `WireFrames.TrackStatusFrame` | internal/wire/track_status_message.go:29-58 | the status (0x0e): request ID, status code, largest group and object, parameters |
| `WireFrames.FlaggedFrame` | internal/wire/control_message_parser.go:60-76 | types 0x02, 0x03, 0x04, 0x16 and 0x18 are read by the parsers of SUBSCRIBE_UPDATE, SUBSCRIBE, SUBSCRIBE_OK, FETCH and FETCH_OK |
| `WireFrames.SubscribeWritten` | session_helpers.go:15-27 | SUBSCRIBE is framed with type 0x03 |
| `WireFrames.SubscribeOkWritten` | session_helpers.go:15-27 | SUBSCRIBE_OK is framed with type 0x04 |
| `WireFrames.SubscribeUpdateWritten` | session_helpers.go:15-27 | SUBSCRIBE_UPDATE is framed with type 0x02 |
| `WireFrames.FetchWritten` | session_helpers.go:15-27 | FETCH is framed with type 0x16 |
| `WireFrames.FetchOkWritten` | session_helpers.go:15-27 | FETCH_OK is framed with type 0x18 |
| `WireFrames.ShortFrame` | internal/wire/control_message_parser.go:21-44 | a frame whose body is cut short ends the reader: with end of input when nothing of the body is there, with a truncated input otherwise |
| `WireFrames.UnknownFrame` | internal/wire/control_message_parser.go:45-110 | a frame of any other one-byte type is an error and is skipped as a whole |
| `ControlMessages.BodyKept` | internal/wire/control_message_parser.go:45-110 | whatever any parser accepts, of all 26 kinds, fits into the bytes it came from when written again and reads back the same (SUBSCRIBE_OK if its duration is zero) |
| `ControlMessages.BodyArrives` | internal/wire/control_message_parser.go:45-110 | what the parser of its kind makes of the body of any message |
| `Framing.FrameArrives` | session_helpers.go:15-27 | a frame is read as exactly one message or error and the bytes after it are not touched, even when its body is refused |
| `Framing.StreamArrives` | internal/wire/control_message_parser.go:21-111 | for every list of framed messages followed by any bytes: the reader gets what each arrives as, in order, up to the first that is refused, and otherwise goes on with what follows |
| `Framing.ArrivesUnchangedIff` | internal/wire/control_message_parser.go:45-110 | a message arrives unchanged exactly when its fields meet conditions the writer can check; ANNOUNCE_CANCEL never does |
| `Framing.StreamRoundTripIff` | internal/wire/control_message_parser.go:21-111 | reading back a list of framed messages gives that list in order and a clean end of input, exactly when every message meets those conditions |
| `Framing.ReframingStableIff` | session_helpers.go:21-24 | a received message can be framed again, is no longer than before and reads the same, exactly when it is not ANNOUNCE_CANCEL and not a SUBSCRIBE_OK with a duration; so re-framing is never too large |
| `Framing.CleanIff` | internal/wire/key_value_pair.go:35-42 | a parameter list survives exactly when each pair sets only the value of its parity |
| `Channel.MeaningSurvives` | session.go:1073-1081 | whatever reading a message drops or normalises, the parts the session acts on stay; `MessageEffects` says what these are by their effects |
| `Channel.LimitSurvives` | session_helpers.go:45-53 | the request-ID limit in a setup message survives the normalisation of its parameters |
| `Channel.ChannelDelivers` | control_stream.go:18-43 | the FIFO channel of the session model is what the wire provides: for every list of framed messages with flags in range, the peer reads as many, in order, each with the effect on a session that `MessageEffects` gives for the message as it was written, then a clean end |
| `Channel.JoiningFetchEnds` | session.go:1233-1235 | every well-formed joining FETCH is read without a namespace and ends the session that reads it |
| `MessageEffects.SubscribeEffect` | session.go:1079-1081 | for a ready session and any SUBSCRIBE with flags in range: a namespace without elements or with more than 32 ends it and nothing else; with 1 to 32, a new ID below the limit gets a track for a subscription, an ID at or above it an error |
| `MessageEffects.FetchEffect` | session.go:1232-1252 | the same for a standalone FETCH (type 1), where an ID at or above the limit ends the session; a joining FETCH (2 or 3) always does |
| `MessageEffects.AnnounceEffect` | session.go:1352-1378 | ANNOUNCE with a namespace of no elements or more than 32 ends the session; with 1 to 32 exactly the handler's replies are written, each for its request ID, and nothing else changes |
| `MessageEffects.SubscribeAnnouncesEffect` | session.go:1436-1456 | SUBSCRIBE_NAMESPACE is answered by its handler for any prefix |
| `MessageEffects.NumberEffect` | session.go:1064-1071 | from the wire to the session: UNSUBSCRIBE n cancels track n, FETCH_CANCEL n also drops it, MAX_REQUEST_ID n makes the limit n or ends the session if that is lower, REQUESTS_BLOCKED changes nothing |
| `MessageEffects.ReplyMeaning` | session.go:947-983 | each OK and ERROR message is a reply of its kind to the request with its first number |
| `MessageEffects.OkMeaning` | session.go:947-959 | SUBSCRIBE_OK and FETCH_OK are replies to the request with their ID, SUBSCRIBE_UPDATE is about the subscription with its ID |
| `MessageEffects.SubscribeDoneMeaning` | session.go:1221-1230 | SUBSCRIBE_DONE is about the request with its first number and carries the number of streams as its third |
| `MessageEffects.LimitParameter` | session_helpers.go:45-53 | the limit in a setup message is the number of its first parameter with key 2, and 0 without one |
| `MessageEffects.SetupMessageEffect` | session.go:1015-1055 | a setup message from the wire makes that parameter the limit; the server answers with 100 |
| `MessageEffects.BadFlagsEnd` | internal/wire/subscribe_message.go:172-180 | a SUBSCRIBE or FETCH with a flag or type out of range ends the session that reads it |
| `SessionInput.OnSubscribe` | session.go:1073-1130 | the handler on the session object checks the namespace of the message and then has exactly the effect above |
| `SessionInput.OnFetch` | session.go:1232-1264 | the same for FETCH |
| `SessionInput.OnAnnounce` | session.go:1352-1378 | the namespace check and the replies of the handler on the session object, and nothing else |
| `ControlStream.AppendClientSetup` | internal/wire/client_setup_message.go:33-43 | the two loops append exactly the encoding |
| `ControlStream.ReadClientSetup` | internal/wire/client_setup_message.go:45-53 | on any body the two list parsers end with the parser's answer |
| `ControlStream.CompileMessage` | session_helpers.go:15-27 | the buffer with its length patched in place is the frame, or the body is too large |
| `ControlStream.ReadBody` | internal/wire/control_message_parser.go:45-110 | the dispatch yields the parser's answer for every kind |
| `ControlStream.ControlMessageParser.Next` | internal/wire/control_message_parser.go:21-111 | one call takes exactly one frame off the reader and returns its message or error |
| `ControlStream.ControlMessageParser.ReadControlStream` | control_stream.go:18-28 | the loop hands over exactly the messages of the stream up to the first error |
| `ByteReaders.ByteReader.ReadByte` | internal/wire/control_message_parser.go:26-33 | one byte, or end of input |
| `ByteReaders.ByteReader.ReadVarint` | internal/wire/control_message_parser.go:22-25 | one integer off the reader; where its bytes run out, the input has ended |
| `ByteReaders.ByteReader.ReadFull` | internal/wire/control_message_parser.go:36-43 | all the bytes asked for, or an error that says whether there was any |
| `ObjectStream.ExtensionsEndStream` | internal/wire/kvp_list.go:68-85 | reading any complete, non-empty list of extension headers ends with end of input |
| `ObjectStream.ObjectArrives` | internal/wire/object_message.go:21-122 | what is read for every object that is written: the object with the header's fields, or end of input if it has extension headers |
| `ObjectStream.ObjectsArrive` | internal/wire/object_stream_parser.go:134-236 | for every list of objects: the reader gets those before the first with extension headers, then a clean end |
| `ObjectStream.ObjectsRoundTripIff` | internal/wire/object_stream_parser.go:134-236 | all objects arrive exactly when none has extension headers, and unchanged exactly when they carry the header's fields and a status only without payload |
| `ObjectStream.SubgroupStreamArrives` | internal/wire/stream_header_subgroup_message.go:14-39 | a whole subgroup stream, header and objects |
| `ObjectStream.FetchStreamArrives` | internal/wire/fetch_header_message.go:11-22 | a whole fetch stream, header and objects |
| `ObjectFormat.SubgroupHeaderRead` | internal/wire/object_stream_parser.go:87-119 | stream types 0x0c and 0x0d carry alias, group, subgroup and priority; 0x0d has objects with extension headers |
| `ObjectFormat.ShortHeaderRead` | internal/wire/object_stream_parser.go:87-119 | stream types 0x08 to 0x0b carry alias, group and priority, and the subgroup is zero; 0x09 and 0x0b have objects with extension headers |
| `ObjectFormat.FetchHeaderRead` | internal/wire/object_stream_parser.go:63-82 | stream type 0x05 carries the request ID |
| `ObjectFormat.OtherStreamRefused` | internal/wire/object_stream_parser.go:121 | any type but 0x05 and 0x08 to 0x0d is refused |
| `ObjectFormat.HeaderBytes` | internal/wire/stream_header_subgroup_message.go:14-20 | writers use type 0x0d with alias, group, subgroup and priority, and type 0x05 with the request ID |
| `ObjectFormat.SubgroupObjectBytes` | internal/wire/object_message.go:21-31 | object ID, length of the extension headers and the headers, payload length, then the payload, or the status of an object without one |
| `ObjectFormat.FetchObjectBytes` | internal/wire/object_message.go:33-46 | in a fetch stream, group, subgroup, object ID and priority come first |
| `ObjectFormat.SubgroupObjectRead` | internal/wire/object_message.go:48-77 | what is read from such bytes in a stream of any of the six types, without extension headers: ID, status and payload from the object, the rest from the header |
| `ObjectFormat.ShortPayload` | internal/wire/object_message.go:74-76 | a payload that is cut short is end of input when nothing of it is there, a truncated input otherwise |
| `ObjectFormat.FetchObjectRead` | internal/wire/object_message.go:79-116 | a fetched object without extension headers is read with its own group, subgroup and priority |
| `ObjectParser.AppendSubgroup` | internal/wire/object_message.go:21-31 | the buffer grows by exactly the encoding |
| `ObjectParser.AppendFetch` | internal/wire/object_message.go:33-46 | the buffer grows by exactly the encoding |
| `ObjectParser.AppendSubgroupHeader` | internal/wire/stream_header_subgroup_message.go:14-20 | the buffer grows by exactly the encoding |
| `ObjectParser.ReadSubgroupHeader` | internal/wire/stream_header_subgroup_message.go:22-39 | reads the header fields of any subgroup stream type off the reader |
| `ObjectParser.SkipExtensions` | internal/wire/kvp_list.go:68-85 | succeeds on an empty list only; otherwise the loop ends with the error of the pair that cannot be read |
| `ObjectParser.ReadObjectTail` | internal/wire/object_message.go:55-76 | extension headers, then payload or status |
| `ObjectParser.ReadFetch` | internal/wire/object_message.go:79-96 | group, subgroup, object and priority of a fetched object |
| `ObjectParser.ObjectStreamParser.Open` | internal/wire/object_stream_parser.go:55-122 | the parser remembers the header of any stream type it knows and refuses the others |
| `ObjectParser.ObjectStreamParser.Next` | internal/wire/object_stream_parser.go:134-246 | one call takes exactly one object off the reader, and the header stays as it is |
| `ObjectBuffer.RunConserves` | remote_track.go:110-119 | in every interleaving of pushes and reads: the objects that calls have returned, followed by those buffered, are an in-order selection of what was pushed, and at most 100 are buffered |
| `ObjectBuffer.AnswerIs` | remote_track.go:110-119 | at every point of every run: a call that gets an object gets the oldest buffered one and removes that one alone; one that ends reports the first cause done was given; one is cancelled exactly when its context has ended; and one blocks exactly when the case it takes is not ready |
| `ObjectBuffer.NothingLostIff` | remote_track.go:173-179 | the objects returned and those buffered are all that was pushed exactly when at no point more than 100 pushes are ahead of the objects returned |
| `ObjectBuffer.StreamReachesBuffer` | remote_track.go:141-164 | objects written to a stream without extension headers end up in the buffer in order if it has room, each with its own group and subgroup on a fetch stream and the header's on a subgroup stream, its ID and its payload |
| `ObjectBuffer.RemoteTrack.PushObject` | remote_track.go:173-179 | an object is buffered if there is room and dropped otherwise |
| `ObjectBuffer.RemoteTrack.ReadObject` | remote_track.go:110-119 | a call that gets an object gets the oldest one, which alone leaves the buffer, with an error if the track is done; one that ends reports the kept cause; one is cancelled only with its context; any other blocks, exactly when the case it takes is not ready |
| `ObjectBuffer.RemoteTrack.Done` | remote_track.go:166-171 | the first closing cause is kept |
| `ObjectBuffer.RemoteTrack.ReadStream` | remote_track.go:141-164 | the loop pushes every object of the stream up to the first error, and end of input is no error |
| `ObjectBuffer.RemoteTrack.ReadSubgroupStream` | remote_track.go:136-139 | the same, and the stream is counted |
| `ObjectBuffer.RemoteTrack.ReadFetchStream` | remote_track.go:129-134 | only the first fetch stream of a track is read |
| `PacketWindow.RunHolds` | quicmoq/logging.go:481-548 | the invariant of the ring after any events: slots, head, count, and an index that is exact |
| `PacketWindow.RingIsLastSent` | quicmoq/logging.go:481-501 | after any events the ring read from its head is the last min(k, N) packets sent, in order |
| `PacketWindow.IndexIsExact` | quicmoq/logging.go:486-497 | after any events an index entry names the slot of the latest, live packet of its number; a number is missing exactly when that packet, or since then an earlier one of the same number, was evicted |
| `PacketWindow.SpacedIndexesAll` | quicmoq/logging.go:486-497 | with distinct numbers in a window every live packet is indexed |
| `PacketWindow.DoubledSendsLoseFeedback` | quicmoq/logging.go:302-313 | a packet recorded twice in a row becomes deaf to feedback while it is still in the window |
| `PacketWindow.FeedSettles` | quicmoq/logging.go:518-548 | a packet's verdict after any feedback: acknowledged if any acknowledgement came, else lost if any loss, else as before |
| `PacketWindow.FeedbackOrderIrrelevant` | quicmoq/logging.go:518-548 | feedback in any order and with any repetitions leaves the same ring |
| `PacketVerdicts.RingRefinesHistoryIff` | quicmoq/logging.go:481-548 | for every stream of events: at every point the ring is the last min(k, N) packets of the full history, verdicts included, exactly when no feedback that says something new is for a number that is in the window and missing from the index |
| `PacketVerdicts.SpacedRefines` | quicmoq/logging.go:481-548 | which holds when no packet number repeats within a window |
| `DoubledPackets.DoubledDeafIff` | quicmoq/logging.go:302-313 | when every packet is recorded twice in a row, whatever the numbers: the index has lost a live number exactly when its last packet is the oldest of a full window of odd size above one, or an earlier packet of that number, less than a window before, was evicted since |
| `DoubledPackets.DoubledRefinesIff` | quicmoq/logging.go:302-313 | for every stream of packets recorded twice with feedback between packets, of all number spaces together: the ring refines the history throughout, exactly when no news is for such a number |
| `DoubledPackets.ForgottenMisses` | quicmoq/logging.go:518-548 | feedback about such a number changes the history and not the ring |
| `DoubledPackets.EvenWindowRefines` | quicmoq/logging.go:302-313 | where no number is used twice within a window, a window of even size loses no feedback |
| `DoubledPackets.OddWindowMisses` | quicmoq/logging.go:302-313 | a full window of odd size misses feedback about its oldest packet, if that number was not used again |
| `DoubledPackets.EvenWindowMisses` | examples/multipath/main.go:113-119 | a window of any even size from 6 on, the 200 of the example included, misses feedback about a number used in two number spaces at the start of a connection, as 0 is |
| `DoubledPackets.DoubledUnsettled` | quicmoq/logging.go:302-313 | in every such stream only second copies ever get a verdict in the ring |
| `SampleSlices.SliceIsFilteredHistory` | quicmoq/logging.go:417-458 | with a clock that does not go back, each slice is the full history of its channel filtered by the cut of the last prune, capped where a cap applies |
| `SampleSlices.PruningRefinesHistory` | quicmoq/logging.go:417-458 | so every slice of a logger whose six slices are those of its calls, and every sum read from it, is the naive one |
| `SampleSlices.PruneStamps` | quicmoq/logging.go:420-433 | drops the leading samples before the cut, and those alone, stopping at the first that is not |
| `SampleSlices.SumStamps` | quicmoq/logging.go:583-596 | the loop adds up all samples |
| `SampleSlices.SumSince` | quicmoq/logging.go:653-669 | the loop adds up the samples since the cut, in whatever order they are |
| `SampleSlices.SentTotals` | quicmoq/logging.go:480-504 | the samples of the two channels for sent packets add up to the number of packets sent and to their bytes |
| `SampleSlices.ReceivedTotals` | quicmoq/logging.go:506-516 | the same for packets received |
| `SampleSlices.FeedbackTotals` | quicmoq/logging.go:518-548 | the channels of feedback add up to the number of acknowledgements and of losses |
| `Telemetry.MetricsMatchHistory` | quicmoq/logging.go:611-651 | when no news is for a packet the index has forgotten, the counts and the byte sum are those of the last N packets of the history, acknowledged plus lost at most sent at most N |
| `Telemetry.DoubledMetrics` | quicmoq/logging.go:611-651 | with every packet recorded twice, whatever the numbers: at most half of the packets reported as sent, one more in a window of odd size, are ever reported as acknowledged or lost; and when no news was missed the packets counted are those of the full history |
| `Telemetry.SmoothedWithin` | quicmoq/logging.go:694-700 | after any readings the smoothed loss lies between the smallest and the largest of them |
| `Telemetry.LossRate` | quicmoq/logging.go:688-693 | the loss rate times the packets with a verdict is 100 times the packets lost, and 0 when none has a verdict; so it is between 0 and 100 |
| `Telemetry.PacketRing.Insert` | quicmoq/logging.go:487-497 | one packet over the oldest, the index kept as specified |
| `Telemetry.PacketRing.Sent` | quicmoq/logging.go:481-501 | the ring holds what the whole stream of events so far makes of it |
| `Telemetry.PacketRing.Ack` | quicmoq/logging.go:518-527 | the same for an acknowledgement |
| `Telemetry.PacketRing.Loss` | quicmoq/logging.go:534-543 | the same for a loss |
| `Telemetry.PacketRing.Tally` | quicmoq/logging.go:617-638 | the modular loop visits each live slot once, oldest first, and skips none |
| `Telemetry.PacketRing.Metrics` | quicmoq/logging.go:611-651 | counts, bytes and span of the window; acknowledged plus lost at most sent at most N |
| `Telemetry.QuicLogger.PruneAll` | quicmoq/logging.go:417-445 | ends every call: all six slices are pruned, received bytes capped in packet mode, and the slices are those of all calls so far |
| `Telemetry.QuicLogger.Sent` | quicmoq/logging.go:481-505 | a packet goes into the ring or into the slices, by mode; the slices are pruned in both |
| `Telemetry.QuicLogger.Received` | quicmoq/logging.go:507-516 | received packets and bytes are recorded in both modes |
| `Telemetry.QuicLogger.Acknowledged` | quicmoq/logging.go:518-532 | into the ring or into the slices, by mode |
| `Telemetry.QuicLogger.Lost` | quicmoq/logging.go:534-548 | into the ring or into the slices, by mode |
| `Telemetry.QuicLogger.Smoothed` | quicmoq/logging.go:694-700 | with x the loss rate of the counts and s the smoothed value before: the new one is x if s is 0, and otherwise 0.8 of the way from x to s; it stays between 0 and 100 whatever was read before |
| `Telemetry.QuicLogger.ReceivedFrom` | quicmoq/logging.go:653-669 | packets and bytes received since the cut, as far as the slices hold them |
| `Telemetry.ReachIs` | quicmoq/logging.go:683-687 | received packets are counted as far back as the packets of the window reach, or a second where these say nothing |
| `Telemetry.QuicLogger.GetRollingMetrics` | quicmoq/logging.go:671-760 | with a clock that does not go back, every count of time mode is the naive sum over all calls since the cut of the last prune; in packet mode the counts are those of the ring, and packets and bytes received the naive sums within its span, the bytes as far as the cap keeps them; the loss is the lost percentage x of the packets reported as acknowledged or lost, smoothed: x if the value s before is 0, otherwise 0.8 of the way from x to s |
| `RoundRobin.RoundRobinSelector.SelectPath` | examples/multipath/Schedulers/round_robin.go:15-29 | the counter and the path of the specification, the connected paths collected in order by the loop |
| `RoundRobin.RoundRobinSelector.Reset` | examples/multipath/Schedulers/round_robin.go:35-37 | the counter starts over |
| `RoundRobin.SelectIsConnected` | examples/multipath/Schedulers/round_robin.go:23-28 | the path is connected, and -1 is returned exactly when none is |
| `RoundRobin.SelectIsFair` | examples/multipath/Schedulers/round_robin.go:27-28 | over any number of calls with the same connected paths, from any counter, two of them are chosen equally often, give or take one, if the counter does not wrap or the number of paths divides 2^64 |
| `RoundRobin.FairForeverIff` | examples/multipath/Schedulers/round_robin.go:27-28 | every run from every counter, wrap-around included, is fair exactly when the number of connected paths divides 2^64 |
| `RoundRobin.WrapIsUnfair` | examples/multipath/Schedulers/round_robin.go:27 | otherwise a run across the wrap-around chooses one path twice and another not at all |

## Left out

- Integer widths: request IDs, limits, counters and packet sizes are unbounded, so behaviour at 2^62 or 2^64 is
  not modelled, except for the varint range, the SUBSCRIBE_OK duration and the scheduler's counter.
- SessionObject.Session.WriteRequest: every control write succeeds; the paths after a failed write are not modelled.
- SessionObject.Session.GetRequestId: application calls are made after the handshake, when `Run` has returned.
- SessionObject.Session.OnClientSetup: version and path negotiation are not modelled; a handshake that fails there has
  no state.
- SessionObject.Session.OnServerSetup: the check of the selected version is not modelled.
- SessionObject.Session.Dispatch: GOAWAY, UNANNOUNCE and track status messages are absent, and the handlers of replies
  are one choice between going on and ending the session; `OutgoingRequests` has these handlers step by step, and
  `JointReplies` decides the choice for answers to SUBSCRIBE and FETCH.
- SessionObject.Session.DispatchRest: the same choice stands for the handlers of replies.
- SessionObject.Session.ReceiveMessage: the same messages are absent and the same choice stands for replies.
- SessionObject.Session.OnRequest: the tables of incoming announcements are not modelled; their handlers may answer with any
  messages, because those tables support no invariant of their own.
- Track status requests: they carry no request ID of their own and their table keeps its entries; in the model the
  ID they take is one that is never sent.
- Unannounce and AnnounceCancel as calls of a session; UNANNOUNCE, UNSUBSCRIBE_NAMESPACE and GOAWAY at a session.
- SessionObject.Session.RunHandler: a handler's uses of its writer happen one after the other within a message;
  later uses are separate events. A duplicate ID, which no conforming peer sends, would replace the track that
  late uses of the first writer act on.
- Track aliases: the local alias counter is not modelled, since SUBSCRIBE_OK is built without an alias;
  `AliasIndexSound` is about arbitrary incoming aliases.
- JointReplies.AnswerEndsReaderIff: replies to announcements and SUBSCRIBE_DONE stay a free choice there, since the
  handlers of incoming announcements may write any replies.
- FetchStream: the fetch stream cached on a local track.
- Varint.ParseFits: the library's error value for an integer cut short in a slice is one constant here.
- WireLoops.ReadTuple: memory reserved for a length that the data does not have is not modelled.
- WireLoops.ReadKvp: a slice bound beyond the data, where the program panics, is an error outcome.
- PlainBodies.FieldsRoundTrip: the 21 bodies that are a plain list of fields are given by their layouts, not by a
  record and a parser each.
- PUBLISH, PUBLISH_OK and PUBLISH_ERROR: never dispatched by the control parser.
- Datagram objects, and the list reader they use.
- Stream types 0x0a and 0x0b: read as the code does, with subgroup ID zero; no writer produces them.
- ObjectBuffer.RemoteTrack.ReadStream: one stream is read to its end in one call; interleavings of several streams
  are those of the single pushes in `RunConserves`.
- Telemetry.QuicLogger: rates, RTT smoothing and transport metrics are left out, and the ring is an object of its
  own; time is a parameter of each call, and locking is left out.
- Floating point: the loss rate and its smoothing are over the real numbers.
- MultiPathPublisher and the other schedulers of the examples.
- QUIC and WebTransport adapters, qlog events, logging and JSON output: calls into libraries or no behaviour to state.
