/** localTrack under concurrency: openSubgroup checks the context, opens a stream and then increments an
    unguarded counter, so calls may interleave with each other and with close. */
module StreamAccounting {
  import opened SessionTypes
  import opened LocalTracks

  /** Where one call of openSubgroup is. */
  datatype Phase =
    | Checked                 // the track was not closed
    | Opened                  // the stream is open, not counted yet
    | Loaded(value: nat)      // the counter has been read for its increment

  datatype Account = Account(
    cause: Option<Cause>,
    calls: map<nat, Phase>,   // openSubgroup calls in progress
    streams: nat,              // streams ever opened
    count: nat,               // subgroupCount
    closing: nat,             // close calls between cancelling and SUBSCRIBE_DONE
    done: Option<nat>)        // the stream count in SUBSCRIBE_DONE

  datatype Step =
    | Check(call: nat)
    | OpenStream(call: nat, ok: bool)
    | Load(call: nat)
    | Store(call: nat)
    | CancelForClose
    | SendDone
    | PeerUnsubscribes

  function StepOf(a: Account, s: Step): Account {
    match s
    case Check(c) => if c in a.calls || a.cause.Some? then a else a.(calls := a.calls[c := Checked])
    case OpenStream(c, ok) =>
      if c in a.calls && a.calls[c].Checked? then
        if ok then a.(streams := a.streams + 1, calls := a.calls[c := Opened]) else a.(calls := a.calls - {c})
      else a
    case Load(c) => if c in a.calls && a.calls[c].Opened? then a.(calls := a.calls[c := Loaded(a.count)]) else a
    case Store(c) =>
      if c in a.calls && a.calls[c].Loaded? then a.(count := a.calls[c].value + 1, calls := a.calls - {c}) else a
    case CancelForClose =>
      a.(cause := if a.cause.None? then Some(SubscriptionEnded) else a.cause, closing := a.closing + 1)
    case SendDone =>
      if a.closing == 0 then a
      else a.(closing := a.closing - 1, done := if a.done.None? then Some(a.count) else a.done)
    case PeerUnsubscribes => a.(cause := if a.cause.None? then Some(PeerUnsubscribed) else a.cause)
  }

  function Run(a: Account, steps: seq<Step>): Account
    decreases |steps|
  {
    if steps == [] then a else Run(StepOf(a, steps[0]), steps[1..])
  }

  const NEW_ACCOUNT := Account(None, map[], 0, 0, 0, None)

  // ----- When SUBSCRIBE_DONE is exact -----

  /** No call of openSubgroup can still open a stream. */
  ghost predicate NoneOpening(a: Account) {
    forall c :: c in a.calls ==> !a.calls[c].Checked?
  }

  lemma {:induction false} NothingOpensAfterwards(a: Account, steps: seq<Step>)
    requires a.cause.Some? && NoneOpening(a)
    ensures Run(a, steps).streams == a.streams
    decreases |steps|
  {
    if steps != [] {
      NothingOpensAfterwards(StepOf(a, steps[0]), steps[1..]);
    }
  }

  /** From a single state: the count stays exact when it is and no openSubgroup call is past its check.
      `DoneExactIff` says for which schedules that is. */
  lemma DoneCountExactIff(a: Account)
    requires a.closing > 0 && a.cause.Some? && a.done.None?
    ensures var t := StepOf(a, SendDone);
      (forall steps :: Run(t, steps).streams == t.done.value) <==> a.streams == a.count && NoneOpening(a)
  {
    var t := StepOf(a, SendDone);
    if a.streams != a.count {
      assert Run(t, []).streams != t.done.value;
    } else if !NoneOpening(a) {
      var c :| c in a.calls && a.calls[c].Checked?;
      RunCons(t, OpenStream(c, true), []);
      assert Run(t, [OpenStream(c, true)] + []).streams != t.done.value;
    } else {
      forall steps ensures Run(t, steps).streams == t.done.value {
        NothingOpensAfterwards(t, steps);
      }
    }
  }

  lemma RunCons(a: Account, s: Step, rest: seq<Step>)
    ensures Run(a, [s] + rest) == Run(StepOf(a, s), rest)
  {
    assert ([s] + rest)[1..] == rest;
  }

  // ----- Serialised callers -----

  /** Each call finds no other call in progress. */
  predicate Serialised(a: Account, steps: seq<Step>)
    decreases |steps|
  {
    steps == [] || ((steps[0].Check? ==> a.calls == map[]) && Serialised(StepOf(a, steps[0]), steps[1..]))
  }

  /** With at most one call in progress, what is not counted yet is that call's stream. */
  ghost predicate Accounted(a: Account) {
    && (a.calls == map[] ==> a.streams == a.count)
    && (forall c :: c in a.calls ==> a.calls.Keys == {c} && match a.calls[c]
          case Checked => a.streams == a.count
          case Opened => a.streams == a.count + 1
          case Loaded(v) => a.streams == a.count + 1 && v == a.count)
  }

  lemma {:induction false} SerialisedAccounted(a: Account, steps: seq<Step>)
    requires Accounted(a) && Serialised(a, steps)
    ensures Accounted(Run(a, steps))
    decreases |steps|
  {
    if steps != [] {
      SerialisedAccounted(StepOf(a, steps[0]), steps[1..]);
    }
  }

  /** Callers that never overlap, with close called between their calls, get an exact SUBSCRIBE_DONE. */
  lemma SerialisedDoneExact(steps: seq<Step>, more: seq<Step>)
    requires Serialised(NEW_ACCOUNT, steps)
    requires var a := Run(NEW_ACCOUNT, steps); a.calls == map[] && a.closing > 0 && a.cause.Some? && a.done.None?
    ensures var t := StepOf(Run(NEW_ACCOUNT, steps), SendDone); Run(t, more).streams == t.done.value
  {
    var a := Run(NEW_ACCOUNT, steps);
    SerialisedAccounted(NEW_ACCOUNT, steps);
    DoneCountExactIff(a);
  }

  /** Two overlapping calls can lose an increment: two streams opened, one counted. */
  lemma OverlapLosesCount(c: nat, d: nat)
    requires c != d
    ensures exists steps :: var a := Run(NEW_ACCOUNT, steps); a.calls == map[] && a.streams == 2 && a.count == 1
  {
    var closing := [Store(c)] + ([Store(d)] + []);
    var loading := [Load(c)] + ([Load(d)] + closing);
    var opening := [OpenStream(c, true)] + ([OpenStream(d, true)] + loading);
    var steps := [Check(c)] + ([Check(d)] + opening);
    var a2 := RunPair(NEW_ACCOUNT, Check(c), Check(d), opening);
    var a4 := RunPair(a2, OpenStream(c, true), OpenStream(d, true), loading);
    var a6 := RunPair(a4, Load(c), Load(d), closing);
    var a8 := RunPair(a6, Store(c), Store(d), []);
    assert Run(NEW_ACCOUNT, steps) == a8;
  }

  lemma RunPair(a: Account, s: Step, t: Step, rest: seq<Step>) returns (b: Account)
    ensures b == StepOf(StepOf(a, s), t) && Run(a, [s] + ([t] + rest)) == Run(b, rest)
  {
    b := StepOf(StepOf(a, s), t);
    RunCons(a, s, [t] + rest);
    RunCons(StepOf(a, s), t, rest);
  }

  // ----- In every run -----

  /** Whatever the interleaving: one SUBSCRIBE_DONE at most, its count never above the streams opened,
      and the first closing cause and the count sent stay as they are. */
  ghost predicate Later(a: Account, b: Account) {
    && (a.cause.Some? ==> b.cause == a.cause) && (a.done.Some? ==> b.done == a.done)
    && a.streams <= b.streams
  }

  /** Calls whose stream is open but not counted yet. */
  function Owing(a: Account): set<nat> {
    set c | c in a.calls && !a.calls[c].Checked?
  }

  ghost predicate Bounded(a: Account) {
    && a.count + |Owing(a)| <= a.streams
    && (forall c :: c in a.calls && a.calls[c].Loaded? ==> a.calls[c].value + |Owing(a)| <= a.streams)
    && (a.done.Some? ==> a.cause.Some? && a.done.value <= a.streams)
    && (a.closing > 0 ==> a.cause.Some?)
  }

  lemma OpenBounded(a: Account, c: nat)
    requires Bounded(a) && c in a.calls && a.calls[c].Checked?
    ensures Bounded(StepOf(a, OpenStream(c, true)))
  {
    assert Owing(StepOf(a, OpenStream(c, true))) == Owing(a) + {c};
  }

  lemma StoreBounded(a: Account, c: nat)
    requires Bounded(a) && c in a.calls && a.calls[c].Loaded?
    ensures Bounded(StepOf(a, Store(c)))
  {
    assert Owing(StepOf(a, Store(c))) == Owing(a) - {c};
  }

  lemma OtherBounded(a: Account, s: Step)
    requires Bounded(a) && !s.Store? && !(s.OpenStream? && s.ok)
    ensures Bounded(StepOf(a, s))
  {
    assert Owing(StepOf(a, s)) == Owing(a);
  }

  lemma StepBounded(a: Account, s: Step)
    requires Bounded(a)
    ensures Bounded(StepOf(a, s)) && Later(a, StepOf(a, s))
  {
    if s.OpenStream? && s.ok && s.call in a.calls && a.calls[s.call].Checked? {
      OpenBounded(a, s.call);
    } else if s.Store? && s.call in a.calls && a.calls[s.call].Loaded? {
      StoreBounded(a, s.call);
    } else if !s.Store? && !(s.OpenStream? && s.ok) {
      OtherBounded(a, s);
    }
  }

  lemma {:induction false} RunBounded(a: Account, steps: seq<Step>)
    requires Bounded(a)
    ensures Bounded(Run(a, steps)) && Later(a, Run(a, steps))
    decreases |steps|
  {
    if steps != [] {
      StepBounded(a, steps[0]);
      RunBounded(StepOf(a, steps[0]), steps[1..]);
    }
  }

  /** In every interleaving SUBSCRIBE_DONE never reports more streams than were opened, and neither it
      nor the first closing cause changes afterwards. */
  lemma DoneNeverOvercounts(steps: seq<Step>, more: seq<Step>)
    ensures var a := Run(NEW_ACCOUNT, steps); var b := Run(a, more);
      && (a.done.Some? ==> b.done == a.done && a.done.value <= a.streams)
      && (a.cause.Some? ==> b.cause == a.cause)
  {
    RunBounded(NEW_ACCOUNT, steps);
    RunBounded(Run(NEW_ACCOUNT, steps), more);
  }

  // ----- The schedules with an exact SUBSCRIBE_DONE -----

  /** No increment is lost: every store finds the counter as its call read it. */
  predicate Whole(a: Account, steps: seq<Step>)
    decreases |steps|
  {
    steps == [] || (StoreFits(a, steps[0]) && Whole(StepOf(a, steps[0]), steps[1..]))
  }

  predicate StoreFits(a: Account, s: Step) {
    s.Store? && s.call in a.calls && a.calls[s.call].Loaded? ==> a.calls[s.call].value == a.count
  }

  /** Every stream is counted or about to be. */
  ghost predicate Balanced(a: Account) {
    Bounded(a) && a.count + |Owing(a)| == a.streams
  }

  /** A stream is missing from the count, and no value held by a call brings it back. */
  ghost predicate Short(a: Account) {
    && a.count + |Owing(a)| < a.streams
    && forall c :: c in a.calls && a.calls[c].Loaded? ==> a.calls[c].value + |Owing(a)| < a.streams
  }

  lemma OwingStep(a: Account, s: Step)
    ensures Owing(StepOf(a, s)) ==
      if s.OpenStream? && s.ok && s.call in a.calls && a.calls[s.call].Checked? then Owing(a) + {s.call}
      else if s.Store? && s.call in a.calls && a.calls[s.call].Loaded? then Owing(a) - {s.call}
      else Owing(a)
  {}

  lemma BalancedStep(a: Account, s: Step)
    requires Balanced(a)
    ensures StoreFits(a, s) ==> Balanced(StepOf(a, s))
    ensures !StoreFits(a, s) ==> Short(StepOf(a, s))
  {
    OwingStep(a, s);
    StepBounded(a, s);
  }

  /** Once short, always short. */
  lemma ShortStep(a: Account, s: Step)
    requires Short(a)
    ensures Short(StepOf(a, s))
  {
    OwingStep(a, s);
  }

  lemma {:induction false} ShortRun(a: Account, steps: seq<Step>)
    requires Short(a)
    ensures Short(Run(a, steps))
    decreases |steps|
  {
    if steps != [] {
      ShortStep(a, steps[0]);
      ShortRun(StepOf(a, steps[0]), steps[1..]);
    }
  }

  /** A run balances to the end exactly when no increment is lost. */
  lemma {:induction false} RunBalances(a: Account, steps: seq<Step>)
    requires Balanced(a)
    ensures Whole(a, steps) ==> Balanced(Run(a, steps))
    ensures !Whole(a, steps) ==> Short(Run(a, steps))
    decreases |steps|
  {
    if steps != [] {
      BalancedStep(a, steps[0]);
      if StoreFits(a, steps[0]) {
        RunBalances(StepOf(a, steps[0]), steps[1..]);
      } else {
        ShortRun(StepOf(a, steps[0]), steps[1..]);
      }
    }
  }

  lemma OwingNone(a: Account)
    ensures |Owing(a)| == 0 && NoneOpening(a) <==> a.calls == map[]
  {
    if |Owing(a)| == 0 && NoneOpening(a) {
      assert forall c :: c in a.calls ==> c in Owing(a);
      assert a.calls.Keys == {};
    }
  }

  /** The count that SUBSCRIBE_DONE carries is the number of streams ever opened, however the run goes on,
      exactly for the schedules in which no increment was lost and no call of openSubgroup is in progress. */
  lemma DoneExactIff(steps: seq<Step>)
    requires var a := Run(NEW_ACCOUNT, steps); a.closing > 0 && a.done.None?
    ensures var t := StepOf(Run(NEW_ACCOUNT, steps), SendDone);
      (forall more :: Run(t, more).streams == t.done.value) <==>
      Whole(NEW_ACCOUNT, steps) && Run(NEW_ACCOUNT, steps).calls == map[]
  {
    var a := Run(NEW_ACCOUNT, steps);
    assert Owing(NEW_ACCOUNT) == {};
    RunBounded(NEW_ACCOUNT, steps);
    RunBalances(NEW_ACCOUNT, steps);
    DoneCountExactIff(a);
    OwingNone(a);
  }
}
