/** What a caller is told is what the peer replied, in every run of an endpoint's requests. */
module ReplyValues {
  import opened RequestIds
  import opened SessionTypes
  import opened RemoteTracks
  import opened OutgoingRequests

  /** The reply is about request `id`, and says OK or not. */
  predicate Says(r: Reply, id: nat, ok: bool) {
    match r
    case SubscribeOk(i, _) => i == id && ok
    case FetchOk(i) => i == id && ok
    case TrackError(i) => i == id && !ok
    case AnnounceOk(i) => i == id && ok
    case AnnounceError(i) => i == id && !ok
    case SubscribeAnnouncesReply(i, b) => i == id && ok == b
  }

  /** The peer has replied so. */
  ghost predicate Told(steps: seq<Step>, id: nat, ok: bool) {
    exists i :: 0 <= i < |steps| && steps[i].Read? && Says(steps[i].reply, id, ok)
  }

  /** Whatever the reader holds, a channel holds or a caller has taken, the peer has said. */
  ghost predicate Truthful(o: Out, steps: seq<Step>) {
    && (o.reader.Confirmed? ==> Told(steps, o.reader.id, true))
    && (o.reader.Notify? ==> Told(steps, o.reader.id, o.reader.ok))
    && (forall id :: id in o.channel ==> Told(steps, id, o.channel[id]))
    && (forall id :: id in o.calls && o.calls[id].stage.Returned? ==> Told(steps, id, true))
  }

  lemma ToldMore(steps: seq<Step>, s: Step, id: nat, ok: bool)
    requires Told(steps, id, ok)
    ensures Told(steps + [s], id, ok)
  {
    var i :| 0 <= i < |steps| && steps[i].Read? && Says(steps[i].reply, id, ok);
    assert (steps + [s])[i] == steps[i];
  }

  lemma TruthfulMore(o: Out, steps: seq<Step>, s: Step)
    requires Truthful(o, steps)
    ensures Truthful(o, steps + [s])
  {
    forall id, ok | Told(steps, id, ok)
      ensures Told(steps + [s], id, ok)
    {
      ToldMore(steps, s, id, ok);
    }
  }

  /** A reply leaves calls and channels alone, and the reader with what it says. */
  lemma ReadSays(o: Out, r: Reply)
    requires o.reader.Idle?
    ensures var u := ReadReply(o, r);
      && u.calls == o.calls && u.channel == o.channel
      && (u.reader.Confirmed? ==> Says(r, u.reader.id, true))
      && (u.reader.Notify? ==> Says(r, u.reader.id, u.reader.ok))
  {}

  lemma ReadTruthful(o: Out, steps: seq<Step>, r: Reply)
    requires Truthful(o, steps) && o.reader.Idle?
    ensures Truthful(ReadReply(o, r), steps + [Read(r)])
  {
    var u, now := ReadReply(o, r), steps + [Read(r)];
    TruthfulMore(o, steps, Read(r));
    ReadSays(o, r);
    assert now[|steps|] == Read(r);
  }

  lemma ContinueTruthful(o: Out, steps: seq<Step>)
    requires Truthful(o, steps)
    ensures Truthful(ReadOn(o), steps)
  {}

  lemma CallTruthful(o: Out, s: Step, steps: seq<Step>)
    requires OnePlace(o) && Truthful(o, steps) && !s.Read? && !s.Continue?
    ensures Truthful(StepOf(o, s), steps)
  {
    CallConfirms(o, s);
  }

  lemma StepTruthful(o: Out, s: Step, steps: seq<Step>)
    requires OnePlace(o) && Truthful(o, steps)
    ensures Truthful(StepOf(o, s), steps + [s])
  {
    TruthfulMore(o, steps, s);
    if s.Read? {
      if !o.failed && o.reader.Idle? {
        ReadTruthful(o, steps, s.reply);
      }
    } else if s.Continue? {
      ContinueTruthful(o, steps + [s]);
    } else {
      CallTruthful(o, s, steps + [s]);
    }
  }

  lemma {:induction false} RunTruthful(o: Out, before: seq<Step>, steps: seq<Step>)
    requires OnePlace(o) && Truthful(o, before)
    ensures Truthful(Run(o, steps), before + steps)
    decreases |steps|
  {
    if steps == [] {
      assert before + [] == before;
    } else {
      StepOnePlace(o, steps[0]);
      StepTruthful(o, steps[0], before);
      RunTruthful(StepOf(o, steps[0]), before + [steps[0]], steps[1..]);
      assert before + [steps[0]] + steps[1..] == before + steps;
    }
  }

  /** In every run, however callers and replies interleave: a value in a response channel is the verdict of a reply
      to that very request, and a call returns successfully only after such a reply said OK. */
  lemma ValuesAreReplies(ids: Generator, steps: seq<Step>)
    requires ids.interval > 0
    ensures var o := Run(Start(ids), steps);
      && (forall id :: id in o.channel ==> Told(steps, id, o.channel[id]))
      && (forall id :: id in o.calls && o.calls[id].stage.Returned? ==> Told(steps, id, true))
  {
    RunTruthful(Start(ids), [], steps);
    assert [] + steps == steps;
  }

  // ----- A reply that is waited for gets there -----

  /** The pending entry that a reply of this form needs. */
  predicate Awaited(o: Out, r: Reply) {
    match r
    case SubscribeOk(id, alias) => id in o.table.pending && alias !in o.table.aliases
    case FetchOk(id) => id in o.table.pending
    case TrackError(id) => id in o.table.pending
    case AnnounceOk(id) => id in o.announcements
    case AnnounceError(id) => id in o.announcements
    case SubscribeAnnouncesReply(id, _) => id in o.subscriptions
  }

  function TwoSteps(o: Out, r: Reply): Out {
    ReadOn(ReadReply(o, r))
  }

  /** The reader puts the verdict of a reply into the channel of its caller: after one more locked section, for a
      SUBSCRIBE_OK after two, where the track gets its alias. */
  lemma ReplyGetsThere(o: Out, r: Reply)
    requires OnePlace(o) && o.reader.Idle? && !o.failed && Awaited(o, r)
    ensures var u := if r.SubscribeOk? then ReadOn(TwoSteps(o, r)) else TwoSteps(o, r);
      && !u.failed && u.reader.Idle? && r.id in u.channel && Says(r, r.id, u.channel[r.id])
      && (r.SubscribeOk? ==> r.alias in u.table.aliases && u.table.aliases[r.alias] == r.id && r.id in u.table.open)
      && (r.FetchOk? ==> r.id in u.table.open)
      && (r.TrackError? ==> r.id !in u.table.open && r.id !in u.table.pending)
  {}

  /** A reply nobody waits for ends the session. */
  lemma StrayReplyFails(o: Out, r: Reply)
    requires r.SubscribeOk? || r.FetchOk? || r.TrackError? ==> r.id !in o.table.pending
    requires r.AnnounceOk? || r.AnnounceError? ==> r.id !in o.announcements
    requires r.SubscribeAnnouncesReply? ==> r.id !in o.subscriptions
    ensures ReadReply(o, r) == o.(failed := true)
  {}
}
