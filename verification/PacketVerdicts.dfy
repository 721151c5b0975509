/** When the ring of the last N packets agrees with the full history, verdicts included: exactly when no feedback
    is for a packet the index has forgotten. */
module PacketVerdicts {
  import opened Modular
  import opened PacketWindow

  // ----- Feedback that is ignored -----

  /** The number's last packet is in the window but the index has lost it. */
  ghost predicate Deaf(h: seq<Sample>, n: nat, num: int) {
    Live(LastOf(h, num), |h|, n) && !Indexed(h, n, num)
  }

  /** Feedback that tells the history something new. */
  predicate Matters(h: seq<Sample>, e: Event) {
    match e
    case Sent(_, _, _) => false
    case Ack(num) => LastOf(h, num) >= 0 && !h[LastOf(h, num)].verdict.Acked?
    case Loss(num) => LastOf(h, num) >= 0 && h[LastOf(h, num)].verdict.Unknown?
  }

  ghost predicate Ignored(h: seq<Sample>, n: nat, e: Event) {
    Matters(h, e) && Deaf(h, n, e.num)
  }

  ghost predicate AllHeard(n: nat, events: seq<Event>) {
    forall i :: 0 <= i < |events| ==> !Ignored(History(events[..i]), n, events[i])
  }

  /** Every live slot agrees with the history, verdict included. */
  ghost predicate Agrees(w: Window, n: nat, h: seq<Sample>) {
    Holds(w, n, h) && forall j :: Live(j, |h|, n) ==> w.ring[j % n] == h[j]
  }

  /** The ring is the last min(k, N) packets of the history. */
  ghost predicate Refines(n: nat, events: seq<Event>)
    requires n > 0
  {
    Recent(Run(n, events)) == Tail(History(events), n)
  }

  lemma AgreesIff(w: Window, n: nat, h: seq<Sample>)
    requires Holds(w, n, h)
    ensures Recent(w) == Tail(h, n) <==> Agrees(w, n, h)
  {
    if Recent(w) == Tail(h, n) {
      forall j | Live(j, |h|, n)
        ensures w.ring[j % n] == h[j]
      {
        RingAt(w, n, h, j - (|h| - w.count));
      }
    }
    if Agrees(w, n, h) {
      forall i | 0 <= i < w.count
        ensures Recent(w)[i] == Tail(h, n)[i]
      {
        RingAt(w, n, h, i);
      }
    }
  }

  // ----- One event -----

  lemma SentAgrees(w: Window, n: nat, h: seq<Sample>, x: Sample)
    requires Agrees(w, n, h) && x.verdict.Unknown?
    ensures Agrees(OnSent(w, x.num, x.size, x.time), n, h + [x])
  {
    SentHolds(w, n, h, x);
    var u, k := OnSent(w, x.num, x.size, x.time), |h|;
    forall j | Live(j, k + 1, n)
      ensures u.ring[j % n] == (h + [x])[j]
    {
      if j < k {
        RemaindersDiffer(j, k, n);
        assert Live(j, k, n);
      }
    }
  }

  /** A verdict about a number the index knows, or about one that is not live, reaches the right packet. */
  lemma SettleAgrees(w: Window, n: nat, h: seq<Sample>, num: int, v: Verdict)
    requires Agrees(w, n, h) && !Deaf(h, n, num)
    ensures Agrees(Settle(w, num, v), n, Mark(h, num, v))
  {
    var u, g, j := Settle(w, num, v), Mark(h, num, v), LastOf(h, num);
    FeedbackHolds(w, u, n, h, g);
    forall i | Live(i, |h|, n)
      ensures u.ring[i % n] == g[i]
    {
      assert w.ring[i % n] == h[i];
      if i != j && Live(j, |h|, n) {
        RemaindersDiffer(if i < j then i else j, if i < j then j else i, n);
      }
    }
  }

  /** A verdict the index cannot place is missing from the ring. */
  lemma SettleMisses(w: Window, n: nat, h: seq<Sample>, num: int, v: Verdict)
    requires Agrees(w, n, h) && Deaf(h, n, num) && h[LastOf(h, num)].verdict != v
    ensures !Agrees(w, n, Mark(h, num, v))
  {
    var j := LastOf(h, num);
    assert w.ring[j % n] == h[j] && Live(j, |Mark(h, num, v)|, n);
  }

  /** Whether feedback would change a live packet, seen from the ring. */
  lemma LossSeen(w: Window, n: nat, h: seq<Sample>, num: int)
    requires Agrees(w, n, h) && num in w.byNum
    ensures LastOf(h, num) >= 0 && w.ring[w.byNum[num]] == h[LastOf(h, num)]
  {
    assert Live(LastOf(h, num), |h|, n);
  }

  lemma AckAgreesIff(w: Window, n: nat, h: seq<Sample>, num: int)
    requires Agrees(w, n, h)
    ensures Agrees(OnAck(w, num), n, Mark(h, num, Acked)) <==> !Ignored(h, n, Ack(num))
  {
    var j := LastOf(h, num);
    if !Deaf(h, n, num) {
      SettleAgrees(w, n, h, num, Acked);
    } else if h[j].verdict.Acked? {
      assert Mark(h, num, Acked) == h;
    } else {
      SettleMisses(w, n, h, num, Acked);
    }
  }

  lemma LossAgreesIff(w: Window, n: nat, h: seq<Sample>, num: int)
    requires Agrees(w, n, h)
    ensures Agrees(OnLoss(w, num), n, HistoryStep(h, Loss(num))) <==> !Ignored(h, n, Loss(num))
  {
    var j := LastOf(h, num);
    if num in w.byNum {
      LossSeen(w, n, h, num);
    }
    if j >= 0 && h[j].verdict.Unknown? {
      if Deaf(h, n, num) {
        SettleMisses(w, n, h, num, Lost);
      } else {
        SettleAgrees(w, n, h, num, Lost);
      }
    }
  }

  lemma StepAgreesIff(w: Window, n: nat, h: seq<Sample>, e: Event)
    requires Agrees(w, n, h) && w.head < |w.ring| && forall m :: m in w.byNum ==> w.byNum[m] < |w.ring|
    ensures Agrees(Step(w, e), n, HistoryStep(h, e)) <==> !Ignored(h, n, e)
  {
    match e
    case Sent(num, size, time) => SentAgrees(w, n, h, Sample(time, num, size, Unknown));
    case Ack(num) => AckAgreesIff(w, n, h, num);
    case Loss(num) => LossAgreesIff(w, n, h, num);
  }

  // ----- Any stream -----

  ghost predicate AgreesAt(n: nat, events: seq<Event>) {
    n > 0 && Agrees(Run(n, events), n, History(events))
  }

  /** A property of all prefixes, one event at a time. */
  lemma {:induction false} PrefixesSnoc(p: seq<Event> -> bool, init: seq<Event>, e: Event)
    ensures (forall k :: 0 <= k <= |init| + 1 ==> p((init + [e])[..k])) <==>
            (forall k :: 0 <= k <= |init| ==> p(init[..k])) && p(init + [e])
  {
    var all := init + [e];
    assert all[..|init| + 1] == all;
    assert forall k :: 0 <= k <= |init| ==> all[..k] == init[..k];
  }

  lemma {:induction false} AgreesSnoc(n: nat, init: seq<Event>, e: Event)
    requires AgreesAt(n, init)
    ensures AgreesAt(n, init + [e]) <==> !Ignored(History(init), n, e)
  {
    assert (init + [e])[..|init|] == init;
    StepAgreesIff(Run(n, init), n, History(init), e);
  }

  lemma {:induction false} AgreesAtIff(n: nat, events: seq<Event>)
    requires n > 0
    ensures AgreesAt(n, events) <==> Refines(n, events)
  {
    RunHolds(n, events);
    AgreesIff(Run(n, events), n, History(events));
  }

  lemma {:induction false} HeardSnoc(n: nat, events: seq<Event>, e: Event)
    ensures AllHeard(n, events + [e]) <==> AllHeard(n, events) && !Ignored(History(events), n, e)
  {
    var all := events + [e];
    assert forall i :: 0 <= i <= |events| ==> all[..i] == events[..i];
    assert all[|events|] == e && events[..|events|] == events;
    if AllHeard(n, all) {
      assert !Ignored(History(all[..|events|]), n, all[|events|]);
    }
    if AllHeard(n, all) {
      forall i | 0 <= i < |events|
        ensures !Ignored(History(events[..i]), n, events[i])
      {
        assert all[i] == events[i];
      }
    }
  }

  ghost predicate AllAgree(n: nat, events: seq<Event>) {
    forall k :: 0 <= k <= |events| ==> AgreesAt(n, events[..k])
  }

  lemma {:induction false} AllAgreeSnoc(n: nat, init: seq<Event>, e: Event)
    ensures AllAgree(n, init + [e]) <==> AllAgree(n, init) && AgreesAt(n, init + [e])
  {
    PrefixesSnoc(es => AgreesAt(n, es), init, e);
  }

  lemma {:induction false} AllAgreeLast(n: nat, events: seq<Event>)
    requires AllAgree(n, events)
    ensures AgreesAt(n, events)
  {
    assert events[..|events|] == events;
  }

  lemma {:induction false} AllAgreeIff(n: nat, events: seq<Event>)
    requires n > 0
    ensures AllAgree(n, events) <==> AllHeard(n, events)
  {
    if events == [] {
      RunHolds(n, events);
    } else {
      var init, e := events[..|events| - 1], events[|events| - 1];
      assert events == init + [e];
      AllAgreeIff(n, init);
      AllAgreeSnoc(n, init, e);
      HeardSnoc(n, init, e);
      if AllAgree(n, init) {
        AllAgreeLast(n, init);
        AgreesSnoc(n, init, e);
      }
    }
  }

  /** The refinement, for every stream: at every point the ring is the last min(k, N) packets of the full
      history, sizes, times and verdicts included, exactly when no feedback that says something new is for a
      number that is in the window and missing from the index. */
  lemma RingRefinesHistoryIff(n: nat, events: seq<Event>)
    requires n > 0
    ensures (forall k :: 0 <= k <= |events| ==> Refines(n, events[..k])) <==> AllHeard(n, events)
  {
    forall k | 0 <= k <= |events|
      ensures AgreesAt(n, events[..k]) <==> Refines(n, events[..k])
    {
      AgreesAtIff(n, events[..k]);
    }
    AllAgreeIff(n, events);
  }

  // ----- Distinct numbers in a window -----

  lemma {:induction false} PrefixNumbers(events: seq<Event>, i: nat)
    requires i <= |events|
    ensures var g, h := History(events[..i]), History(events);
      |g| <= |h| && forall j :: 0 <= j < |g| ==> g[j].num == h[j].num
    decreases |events| - i
  {
    if i < |events| {
      PrefixNumbers(events, i + 1);
      assert events[..i + 1][..i] == events[..i];
    } else {
      assert events[..i] == events;
    }
  }

  lemma SpacedNotDeaf(h: seq<Sample>, n: nat, num: int)
    requires Spaced(h, n)
    ensures !Deaf(h, n, num)
  {}

  /** No number repeating within a window is enough. */
  lemma {:induction false} SpacedRefines(n: nat, events: seq<Event>)
    requires n > 0 && Spaced(History(events), n)
    ensures AllHeard(n, events) && Refines(n, events)
  {
    forall i | 0 <= i < |events|
      ensures !Ignored(History(events[..i]), n, events[i])
    {
      PrefixNumbers(events, i);
      if !events[i].Sent? {
        SpacedNotDeaf(History(events[..i]), n, events[i].num);
      }
    }
    RingRefinesHistoryIff(n, events);
    assert events[..|events|] == events;
  }
}
