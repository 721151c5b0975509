/** The requests of one endpoint, from taking an ID to the value in the response channel.  The peer
    may send any replies, and application goroutines run between any two locked sections. */
module OutgoingRequests {
  import opened RequestIds
  import opened SessionTypes
  import opened RemoteTracks

  /** How far the calling goroutine of an ID has come. */
  datatype Stage = Taken | Waiting | Returned | GaveUp

  datatype Call = Call(kind: Kind, stage: Stage)

  /** Where the reader is inside the handler of a reply: between two locked sections it holds the
      request it has just taken out of a pending table. */
  datatype Reader =
    | Idle
    | Confirmed(id: nat, alias: nat)   // onSubscribeOk, before setAlias
    | Notify(id: nat, ok: bool)        // before writing to the response channel

  datatype Out = Out(
    ids: Generator,
    calls: map<nat, Call>,
    table: Table,                      // SUBSCRIBE and FETCH
    announcements: set<nat>,           // pending ANNOUNCE
    subscriptions: set<nat>,           // pending SUBSCRIBE_ANNOUNCES
    channel: map<nat, bool>,           // values waiting in response channels of capacity one
    written: seq<nat>,                 // every write to a response channel, by ID
    dropped: nat,                      // values dropped because the channel was full
    duplicates: nat,                   // IDs refused by a table as already present
    reader: Reader,
    failed: bool)

  datatype Reply =
    | SubscribeOk(id: nat, alias: nat)
    | FetchOk(id: nat)
    | TrackError(id: nat)
    | AnnounceOk(id: nat)
    | AnnounceError(id: nat)
    | SubscribeAnnouncesReply(id: nat, ok: bool)

  datatype Step =
    | Take(kind: Kind)                 // getRequestID
    | Limit(max: nat)                  // MAX_REQUEST_ID arrives
    | Enter(id: nat)                   // the pending table, then the request is written
    | Cancelled(id: nat)               // the caller's context ends first
    | Obtain(id: nat)                  // the caller receives from its response channel
    | Forget(id: nat)                  // Unannounce, UnsubscribeAnnouncements
    | Read(reply: Reply)               // first locked section of a reply's handler
    | Continue                         // the next one

  function Start(ids: Generator): Out {
    Out(ids, map[], Table({}, {}, map[]), {}, {}, map[], [], 0, 0, Idle, false)
  }

  function At(o: Out, id: nat, s: Stage): Out
    requires id in o.calls
  {
    o.(calls := o.calls[id := o.calls[id].(stage := s)])
  }

  function EnterTable(o: Out, id: nat): Out
    requires id in o.calls
  {
    match o.calls[id].kind
    case Announce => At(o.(announcements := o.announcements + {id}), id, Waiting)
    case SubscribeAnnounces => At(o.(subscriptions := o.subscriptions + {id}), id, Waiting)
    case _ =>
      match AddPending(o.table, id)
      case (_, false) => At(o.(duplicates := o.duplicates + 1), id, GaveUp)
      case (table, true) => At(o.(table := table), id, Waiting)
  }

  /** The caller stops waiting; a track request also leaves the pending table. */
  function Leave(o: Out, id: nat): Out
    requires id in o.calls
  {
    At(if IsTrack(o.calls[id].kind) then o.(table := RejectPending(o.table, id).0) else o, id, GaveUp)
  }

  function ReadReply(o: Out, r: Reply): Out {
    match r
    case SubscribeOk(id, alias) =>
      (match Confirm(o.table, id)
       case (_, false) => o.(failed := true)
       case (table, true) => o.(table := table, reader := Confirmed(id, alias)))
    case FetchOk(id) =>
      (match Confirm(o.table, id)
       case (_, false) => o.(failed := true)
       case (table, true) => o.(table := table, reader := Notify(id, true)))
    case TrackError(id) =>
      (match RejectPending(o.table, id)
       case (_, false) => o.(failed := true)
       case (table, true) => o.(table := table, reader := Notify(id, false)))
    case AnnounceOk(id) =>
      if id in o.announcements
      then o.(announcements := o.announcements - {id}, reader := Notify(id, true))
      else o.(failed := true)
    case AnnounceError(id) =>
      if id in o.announcements
      then o.(announcements := o.announcements - {id}, reader := Notify(id, false))
      else o.(failed := true)
    case SubscribeAnnouncesReply(id, ok) =>
      if id in o.subscriptions
      then o.(subscriptions := o.subscriptions - {id}, reader := Notify(id, ok))
      else o.(failed := true)
  }

  function ReadOn(o: Out): Out {
    match o.reader
    case Idle => o
    case Confirmed(id, alias) =>
      (match SetAlias(o.table, id, alias)
       case (_, false) => o.(reader := Idle, failed := true)
       case (table, true) => o.(table := table, reader := Notify(id, true)))
    case Notify(id, ok) =>
      if id in o.channel
      then o.(reader := Idle, dropped := o.dropped + 1)
      else o.(reader := Idle, channel := o.channel[id := ok], written := o.written + [id])
  }

  function StepOf(o: Out, s: Step): Out {
    match s
    case Take(k) =>
      (match Next(o.ids)
       case (_, Blocked(_)) => o
       case (ids, Issued(id)) => o.(ids := ids, calls := o.calls[id := Call(k, Taken)]))
    case Limit(max) => o.(ids := SetMax(o.ids, max).0)
    case Enter(id) => if id in o.calls && o.calls[id].stage.Taken? then EnterTable(o, id) else o
    case Cancelled(id) => if id in o.calls && o.calls[id].stage.Waiting? then Leave(o, id) else o
    case Obtain(id) =>
      if id in o.calls && o.calls[id].stage.Waiting? && id in o.channel then
        var o1 := o.(channel := o.channel - {id});
        if o.channel[id] then At(o1, id, Returned) else Leave(o1, id)
      else o
    case Forget(id) => o.(announcements := o.announcements - {id}, subscriptions := o.subscriptions - {id})
    case Read(r) => if o.failed || !o.reader.Idle? then o else ReadReply(o, r)
    case Continue => ReadOn(o)
  }

  function Run(o: Out, steps: seq<Step>): Out
    decreases |steps|
  {
    if steps == [] then o else Run(StepOf(o, steps[0]), steps[1..])
  }

  // ----- One value per response channel -----

  /** The reader is between two locked sections of the handler for this ID. */
  predicate InReader(o: Out, id: nat) {
    !o.reader.Idle? && o.reader.id == id
  }

  /** The caller is past entering its request, and no answer has been taken from the table. */
  ghost predicate Unanswered(o: Out, id: nat) {
    id in o.calls && !o.calls[id].stage.Taken? && !InReader(o, id) && id !in o.written
  }

  /** Each ID's answer is in one place only: a pending table, the reader's hands, or the channel. */
  ghost predicate OnePlace(o: Out) {
    && o.ids.interval > 0
    && (forall id :: id in o.calls ==> id < o.ids.id)
    && (forall id :: id in o.table.pending ==> Unanswered(o, id) && IsTrack(o.calls[id].kind) && id !in o.table.open)
    && (forall id :: id in o.announcements ==> Unanswered(o, id) && o.calls[id].kind.Announce?)
    && (forall id :: id in o.subscriptions ==> Unanswered(o, id) && o.calls[id].kind.SubscribeAnnounces?)
    && (forall id :: id in o.table.open ==> id in o.calls && !o.calls[id].stage.Taken? && IsTrack(o.calls[id].kind))
    && (!o.reader.Idle? ==>
          o.reader.id in o.calls && !o.calls[o.reader.id].stage.Taken? && o.reader.id !in o.written)
    && (forall id :: id in o.written ==> id in o.calls && !o.calls[id].stage.Taken?)
    && (forall id :: id in o.channel ==> id in o.written)
    && Distinct(o.written)
    && o.dropped == 0 && o.duplicates == 0
  }

  ghost predicate Distinct(s: seq<nat>) {
    forall i, j :: 0 <= i < j < |s| ==> s[i] != s[j]
  }

  lemma TrackReplyOnePlace(o: Out, r: Reply)
    requires OnePlace(o) && o.reader.Idle? && (r.SubscribeOk? || r.FetchOk? || r.TrackError?)
    ensures OnePlace(ReadReply(o, r))
  {}

  lemma OtherReplyOnePlace(o: Out, r: Reply)
    requires OnePlace(o) && o.reader.Idle? && (r.AnnounceOk? || r.AnnounceError? || r.SubscribeAnnouncesReply?)
    ensures OnePlace(ReadReply(o, r))
  {}

  lemma ContinueOnePlace(o: Out)
    requires OnePlace(o)
    ensures OnePlace(ReadOn(o))
  {}

  lemma EnterTrackOnePlace(o: Out, id: nat)
    requires OnePlace(o) && id in o.calls && o.calls[id].stage.Taken? && IsTrack(o.calls[id].kind)
    ensures OnePlace(EnterTable(o, id))
  {
    assert AddPending(o.table, id).1;
  }

  lemma EnterOtherOnePlace(o: Out, id: nat)
    requires OnePlace(o) && id in o.calls && o.calls[id].stage.Taken? && !IsTrack(o.calls[id].kind)
    ensures OnePlace(EnterTable(o, id))
  {}

  lemma LeaveOnePlace(o: Out, id: nat)
    requires OnePlace(o) && id in o.calls && o.calls[id].stage.Waiting?
    ensures OnePlace(Leave(o, id))
  {}

  lemma ObtainOnePlace(o: Out, id: nat)
    requires OnePlace(o)
    ensures OnePlace(StepOf(o, Obtain(id)))
  {
    if id in o.calls && o.calls[id].stage.Waiting? && id in o.channel {
      var o1 := o.(channel := o.channel - {id});
      EmptyOnePlace(o, id);
      LeaveOnePlace(o1, id);
      if o.channel[id] {
        ReturnOnePlace(o1, id);
      }
    }
  }

  lemma EmptyOnePlace(o: Out, id: nat)
    requires OnePlace(o)
    ensures OnePlace(o.(channel := o.channel - {id}))
  {}

  lemma ReturnOnePlace(o: Out, id: nat)
    requires OnePlace(o) && id in o.calls && o.calls[id].stage.Waiting?
    ensures OnePlace(At(o, id, Returned))
  {}

  lemma TakeOnePlace(o: Out, s: Step)
    requires OnePlace(o) && (s.Take? || s.Limit? || s.Forget?)
    ensures OnePlace(StepOf(o, s))
  {}

  lemma StepOnePlace(o: Out, s: Step)
    requires OnePlace(o)
    ensures OnePlace(StepOf(o, s))
  {
    match s
    case Read(r) =>
      if !o.failed && o.reader.Idle? {
        if r.SubscribeOk? || r.FetchOk? || r.TrackError? {
          TrackReplyOnePlace(o, r);
        } else {
          OtherReplyOnePlace(o, r);
        }
      }
    case Continue => ContinueOnePlace(o);
    case Enter(id) =>
      if id in o.calls && o.calls[id].stage.Taken? {
        if IsTrack(o.calls[id].kind) {
          EnterTrackOnePlace(o, id);
        } else {
          EnterOtherOnePlace(o, id);
        }
      }
    case Cancelled(id) =>
      if id in o.calls && o.calls[id].stage.Waiting? {
        LeaveOnePlace(o, id);
      }
    case Obtain(id) => ObtainOnePlace(o, id);
    case _ => TakeOnePlace(o, s);
  }

  // ----- Confirmed tracks and the alias index -----

  /** An OK value or a returned track means an open track; the index holds open tracks only, and the
      reader assigns an alias at most once to each. */
  ghost predicate OpenIsSound(o: Out) {
    && (forall id :: id in o.channel && o.channel[id] && id in o.calls && IsTrack(o.calls[id].kind)
          ==> id in o.table.open)
    && (forall id :: id in o.calls && IsTrack(o.calls[id].kind) && o.calls[id].stage.Returned?
          ==> id in o.table.open)
    && (o.reader.Confirmed? ==> o.reader.id in o.table.open)
    && (o.reader.Notify? && o.reader.ok && o.reader.id in o.calls && IsTrack(o.calls[o.reader.id].kind) ==>
          o.reader.id in o.table.open)
  }

  ghost predicate AliasesSound(o: Out) {
    && (forall a :: a in o.table.aliases ==> o.table.aliases[a] in o.table.open)
    && (forall a, b :: a in o.table.aliases && b in o.table.aliases && a != b
          ==> o.table.aliases[a] != o.table.aliases[b])
    && (o.reader.Confirmed? ==> forall a :: a in o.table.aliases ==> o.table.aliases[a] != o.reader.id)
  }

  /** What is open stays open, and an alias is never bound again. */
  ghost predicate Grows(t: Table, u: Table) {
    && t.open <= u.open
    && (forall a :: a in t.aliases ==> a in u.aliases && u.aliases[a] == t.aliases[a])
  }

  ghost predicate Confirmations(o: Out) {
    OnePlace(o) && OpenIsSound(o) && AliasesSound(o)
  }

  lemma TrackReplyConfirms(o: Out, r: Reply)
    requires Confirmations(o) && o.reader.Idle? && (r.SubscribeOk? || r.FetchOk? || r.TrackError?)
    ensures var o' := ReadReply(o, r); OpenIsSound(o') && AliasesSound(o') && Grows(o.table, o'.table)
  {}

  lemma OtherReplyConfirms(o: Out, r: Reply)
    requires Confirmations(o) && o.reader.Idle? && (r.AnnounceOk? || r.AnnounceError? || r.SubscribeAnnouncesReply?)
    ensures var o' := ReadReply(o, r); OpenIsSound(o') && AliasesSound(o') && Grows(o.table, o'.table)
  {}

  lemma ContinueConfirms(o: Out)
    requires Confirmations(o)
    ensures var o' := ReadOn(o); OpenIsSound(o') && AliasesSound(o') && Grows(o.table, o'.table)
  {
    if o.reader.Confirmed? {
      AliasConfirms(o);
    }
  }

  lemma AliasConfirms(o: Out)
    requires Confirmations(o) && o.reader.Confirmed?
    ensures var o' := ReadOn(o); OpenIsSound(o') && AliasesSound(o') && Grows(o.table, o'.table)
  {}

  /** Application steps leave the open table and the aliases alone; a caller returns with a track only
      after an OK value. */
  ghost predicate CallEffect(o: Out, o': Out) {
    && o'.table.open == o.table.open && o'.table.aliases == o.table.aliases && o'.reader == o.reader
    && (forall id :: id in o'.channel ==> id in o.channel && o'.channel[id] == o.channel[id])
    && (forall id :: id in o.calls ==> id in o'.calls && o'.calls[id].kind == o.calls[id].kind)
    && (forall id :: id in o'.calls && o'.calls[id].stage.Returned? ==>
          id in o.calls && (o.calls[id].stage.Returned? || (id in o.channel && o.channel[id])))
  }

  lemma LeaveEffect(o: Out, id: nat)
    requires id in o.calls
    ensures CallEffect(o, Leave(o, id))
  {}

  lemma EnterTrackEffect(o: Out, id: nat)
    requires id in o.calls && IsTrack(o.calls[id].kind)
    ensures CallEffect(o, EnterTable(o, id))
  {}

  lemma EnterOtherEffect(o: Out, id: nat)
    requires id in o.calls && !IsTrack(o.calls[id].kind)
    ensures CallEffect(o, EnterTable(o, id))
  {}

  lemma EnterEffect(o: Out, id: nat)
    requires id in o.calls
    ensures CallEffect(o, EnterTable(o, id))
  {
    if IsTrack(o.calls[id].kind) {
      EnterTrackEffect(o, id);
    } else {
      EnterOtherEffect(o, id);
    }
  }

  lemma ObtainEffect(o: Out, id: nat)
    ensures CallEffect(o, StepOf(o, Obtain(id)))
  {}

  lemma CallConfirms(o: Out, s: Step)
    requires OnePlace(o) && !s.Read? && !s.Continue?
    ensures CallEffect(o, StepOf(o, s))
  {
    match s
    case Enter(id) =>
      if id in o.calls && o.calls[id].stage.Taken? {
        EnterEffect(o, id);
      }
    case Cancelled(id) =>
      if id in o.calls && o.calls[id].stage.Waiting? {
        LeaveEffect(o, id);
      }
    case Obtain(id) => ObtainEffect(o, id);
    case _ =>
  }

  lemma EffectConfirms(o: Out, o': Out)
    requires OnePlace(o) && OpenIsSound(o) && AliasesSound(o) && CallEffect(o, o')
    ensures OpenIsSound(o') && AliasesSound(o') && Grows(o.table, o'.table)
  {}

  lemma StepConfirms(o: Out, s: Step)
    requires Confirmations(o)
    ensures var o' := StepOf(o, s); OpenIsSound(o') && AliasesSound(o') && Grows(o.table, o'.table)
  {
    if s.Read? {
      if !o.failed && o.reader.Idle? {
        if s.reply.SubscribeOk? || s.reply.FetchOk? || s.reply.TrackError? {
          TrackReplyConfirms(o, s.reply);
        } else {
          OtherReplyConfirms(o, s.reply);
        }
      }
    } else if s.Continue? {
      ContinueConfirms(o);
    } else {
      CallConfirms(o, s);
      EffectConfirms(o, StepOf(o, s));
    }
  }

  lemma {:induction false} RunInv(o: Out, steps: seq<Step>)
    requires Confirmations(o)
    ensures Confirmations(Run(o, steps)) && Grows(o.table, Run(o, steps).table)
    decreases |steps|
  {
    if steps != [] {
      StepOnePlace(o, steps[0]);
      StepConfirms(o, steps[0]);
      RunInv(StepOf(o, steps[0]), steps[1..]);
    }
  }

  // ----- Main results -----

  /** Whatever the peer replies and however callers interleave: each response channel is written at
      most once and never when full, no ID meets a duplicate in a table, and a track handed to a caller
      is open. */
  lemma OneValuePerChannel(ids: Generator, steps: seq<Step>)
    requires ids.interval > 0
    ensures var o := Run(Start(ids), steps);
      && Distinct(o.written) && o.dropped == 0 && o.duplicates == 0
      && (forall id :: id in o.calls && IsTrack(o.calls[id].kind) && o.calls[id].stage.Returned? ==> id in o.table.open)
  {
    RunInv(Start(ids), steps);
  }

  /** In every run the alias index is injective and points at open tracks only. */
  lemma AliasIndexSound(ids: Generator, steps: seq<Step>)
    requires ids.interval > 0
    ensures var t := Run(Start(ids), steps).table;
      && (forall a :: a in t.aliases ==> t.aliases[a] in t.open)
      && (forall a, b :: a in t.aliases && b in t.aliases && a != b ==> t.aliases[a] != t.aliases[b])
  {
    RunInv(Start(ids), steps);
  }

  /** findByTrackAlias releases the lock between reading the alias and reading the track.  Whatever
      happens in between, an alias found leads to the track that one atomic lookup would give, both
      when the first lock was taken and when the second is. */
  lemma SplitLookupIsAtomic(ids: Generator, before: seq<Step>, between: seq<Step>, alias: nat)
    requires ids.interval > 0
    ensures var t := Run(Start(ids), before).table;
      var u := Run(Run(Start(ids), before), between).table;
      alias in t.aliases ==>
        FindById(u, t.aliases[alias]) == FindByAlias(t, alias) == FindByAlias(u, alias) == Some(t.aliases[alias])
  {
    RunInv(Start(ids), before);
    RunInv(Run(Start(ids), before), between);
  }

  // ----- Replies without an alias -----

  /** Replies as this library writes them: SUBSCRIBE_OK without an alias, which reads as alias 0, and FETCH_OK for a
      FETCH. */
  predicate Native(o: Out, s: Step) {
    s.Read? ==>
      && (s.reply.SubscribeOk? ==> s.reply.alias == 0)
      && (s.reply.FetchOk? ==> !(s.reply.id in o.calls && o.calls[s.reply.id].kind.Subscribe?))
  }

  predicate NativeRun(o: Out, steps: seq<Step>)
    decreases |steps|
  {
    steps == [] || (Native(o, steps[0]) && NativeRun(StepOf(o, steps[0]), steps[1..]))
  }

  /** An OK is on its way to the caller of a SUBSCRIBE, or has reached it. */
  ghost predicate Granted(o: Out, id: nat) {
    && id in o.calls && o.calls[id].kind.Subscribe?
    && (o.calls[id].stage.Returned? || (id in o.channel && o.channel[id]) || o.reader == Notify(id, true))
  }

  /** Alias 0 is the only one, and only its subscription was ever granted. */
  ghost predicate OneGranted(o: Out) {
    && (o.reader.Confirmed? ==> o.reader.alias == 0)
    && (forall a :: a in o.table.aliases ==> a == 0)
    && (forall id :: Granted(o, id) ==> 0 in o.table.aliases && o.table.aliases[0] == id)
  }

  /** A reply leaves the calls, the channels and the aliases alone, and the reader with what it says. */
  ghost predicate Noted(o: Out, o': Out) {
    && o'.calls == o.calls && o'.channel == o.channel && o'.table.aliases == o.table.aliases
    && (o'.reader.Confirmed? ==> o'.reader.alias == 0)
    && (o'.reader.Notify? && o'.reader.ok ==>
          !(o'.reader.id in o.calls && o.calls[o'.reader.id].kind.Subscribe?))
  }

  lemma TrackReplyNoted(o: Out, r: Reply)
    requires o.reader.Idle? && Native(o, Read(r)) && (r.SubscribeOk? || r.FetchOk? || r.TrackError?)
    ensures Noted(o, ReadReply(o, r))
  {}

  lemma OtherReplyNoted(o: Out, r: Reply)
    requires OnePlace(o) && o.reader.Idle? && !(r.SubscribeOk? || r.FetchOk? || r.TrackError?)
    ensures Noted(o, ReadReply(o, r))
  {}

  lemma ReadEffect(o: Out, r: Reply)
    requires OnePlace(o) && o.reader.Idle? && Native(o, Read(r))
    ensures Noted(o, ReadReply(o, r))
  {
    if r.SubscribeOk? || r.FetchOk? || r.TrackError? {
      TrackReplyNoted(o, r);
    } else {
      OtherReplyNoted(o, r);
    }
  }

  lemma ReadGranted(o: Out, r: Reply)
    requires OnePlace(o) && OneGranted(o) && o.reader.Idle? && Native(o, Read(r))
    ensures OneGranted(ReadReply(o, r))
  {
    ReadEffect(o, r);
    forall id | Granted(ReadReply(o, r), id)
      ensures Granted(o, id)
    {}
  }

  lemma ContinueGranted(o: Out)
    requires OnePlace(o) && OneGranted(o)
    ensures OneGranted(ReadOn(o))
  {
    var o' := ReadOn(o);
    forall id | Granted(o', id)
      ensures 0 in o'.table.aliases && o'.table.aliases[0] == id
    {
      assert Granted(o, id) || o.reader == Confirmed(id, 0);
    }
  }

  lemma EffectGranted(o: Out, o': Out)
    requires OnePlace(o) && OneGranted(o) && CallEffect(o, o')
    ensures OneGranted(o')
  {
    forall id | Granted(o', id)
      ensures Granted(o, id)
    {}
  }

  lemma StepGranted(o: Out, s: Step)
    requires OnePlace(o) && OneGranted(o) && Native(o, s)
    ensures OneGranted(StepOf(o, s))
  {
    if s.Read? {
      if !o.failed && o.reader.Idle? {
        ReadGranted(o, s.reply);
      }
    } else if s.Continue? {
      ContinueGranted(o);
    } else {
      CallConfirms(o, s);
      EffectGranted(o, StepOf(o, s));
    }
  }

  lemma {:induction false} RunGranted(o: Out, steps: seq<Step>)
    requires OnePlace(o) && OneGranted(o) && NativeRun(o, steps)
    ensures OnePlace(Run(o, steps)) && OneGranted(Run(o, steps))
    decreases |steps|
  {
    if steps != [] {
      StepOnePlace(o, steps[0]);
      StepGranted(o, steps[0]);
      RunGranted(StepOf(o, steps[0]), steps[1..]);
    }
  }

  /** Since SUBSCRIBE_OK carries no alias, in every run with such replies at most one Subscribe ever returns a track,
      and the reader ends over a confirmed SUBSCRIBE_OK exactly when one was confirmed before. */
  lemma OneSubscription(ids: Generator, steps: seq<Step>)
    requires ids.interval > 0 && NativeRun(Start(ids), steps)
    ensures var o := Run(Start(ids), steps);
      && (forall a, b :: Granted(o, a) && Granted(o, b) ==> a == b)
      && (o.reader.Confirmed? && !o.failed ==> (StepOf(o, Continue).failed <==> o.table.aliases != map[]))
      && (o.reader.Confirmed? && (exists id :: Granted(o, id)) ==> StepOf(o, Continue).failed)
  {
    RunGranted(Start(ids), steps);
  }
}
