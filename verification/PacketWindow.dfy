/** The ring of the last N sent packets with its index by packet number, and what it says about any stream of
    sent, acknowledged and lost packets. */
module PacketWindow {
  import opened Modular

  datatype Verdict = Unknown | Acked | Lost

  /** `time` is 0 in a slot nothing was written to; the clock is never 0. */
  datatype Sample = Sample(time: nat, num: int, size: int, verdict: Verdict)

  const BLANK := Sample(0, 0, 0, Unknown)

  datatype Window = Window(ring: seq<Sample>, head: nat, count: nat, byNum: map<int, nat>)

  function Fresh(n: nat): Window {
    Window(seq(n, _ => BLANK), 0, 0, map[])
  }

  /** Evicts the packet in the slot to be reused, if the ring is full, and forgets its number. */
  function OnSent(w: Window, num: int, size: int, time: nat): Window
    requires w.head < |w.ring|
  {
    var full := w.count == |w.ring|;
    var index := if full then w.byNum - {w.ring[w.head].num} else w.byNum;
    Window(w.ring[w.head := Sample(time, num, size, Unknown)], (w.head + 1) % |w.ring|,
           if full then w.count else w.count + 1, index[num := w.head])
  }

  function Settle(w: Window, num: int, v: Verdict): Window
    requires forall m :: m in w.byNum ==> w.byNum[m] < |w.ring|
  {
    if num in w.byNum then w.(ring := w.ring[w.byNum[num] := w.ring[w.byNum[num]].(verdict := v)]) else w
  }

  /** An acknowledgement overrides an earlier loss. */
  function OnAck(w: Window, num: int): Window
    requires forall m :: m in w.byNum ==> w.byNum[m] < |w.ring|
  {
    Settle(w, num, Acked)
  }

  function OnLoss(w: Window, num: int): Window
    requires forall m :: m in w.byNum ==> w.byNum[m] < |w.ring|
  {
    if num in w.byNum && w.ring[w.byNum[num]].verdict.Unknown? then Settle(w, num, Lost) else w
  }

  /** The live samples, oldest first. */
  function Recent(w: Window): (s: seq<Sample>)
    requires |w.ring| > 0
    ensures |s| == w.count
  {
    seq(w.count, i requires 0 <= i < w.count => w.ring[(w.head - w.count + i + |w.ring|) % |w.ring|])
  }

  // ----- Modular slots -----

  /** The index expression of the metrics loop visits the slot of the right packet. */
  lemma VisitedSlot(k: nat, c: nat, i: nat, n: nat)
    requires n > 0 && c <= k && c <= n && i < c
    ensures (k % n - c + i + n) % n == (k - c + i) % n
  {
    var x := k - c + i;
    var q, r := x / n, x % n;
    assert k % n - c + i + n == n * (q - k / n + 1) + r by {
      assert n * (q - k / n + 1) == n * q - n * (k / n) + n;
    }
    Unique(k % n - c + i + n, n, q - k / n + 1, r);
  }

  // ----- Streams of events -----

  datatype Event =
    | Sent(num: int, size: int, time: nat)
    | Ack(num: int)
    | Loss(num: int)

  /** Everything sent so far; a packet's verdict is what was last learned about its number. */
  function History(events: seq<Event>): seq<Sample> {
    if events == [] then [] else HistoryStep(History(events[..|events| - 1]), events[|events| - 1])
  }

  function HistoryStep(h: seq<Sample>, e: Event): (g: seq<Sample>)
    ensures |g| == |h| + if e.Sent? then 1 else 0
    ensures forall i :: 0 <= i < |h| ==> g[i].num == h[i].num
  {
    match e
    case Sent(num, size, time) => h + [Sample(time, num, size, Unknown)]
    case Ack(num) => Mark(h, num, Acked)
    case Loss(num) => if LastOf(h, num) >= 0 && h[LastOf(h, num)].verdict.Unknown? then Mark(h, num, Lost) else h
  }

  /** The most recent packet with a number, or -1. */
  function LastOf(h: seq<Sample>, num: int): (j: int)
    ensures -1 <= j < |h| && (j >= 0 ==> h[j].num == num)
    ensures forall i :: j < i < |h| ==> h[i].num != num
  {
    if h == [] then -1
    else if h[|h| - 1].num == num then |h| - 1
    else LastOf(h[..|h| - 1], num)
  }

  function Mark(h: seq<Sample>, num: int, v: Verdict): (m: seq<Sample>)
    ensures |m| == |h| && forall i :: 0 <= i < |h| ==> m[i].num == h[i].num
  {
    var j := LastOf(h, num);
    if j < 0 then h else h[j := h[j].(verdict := v)]
  }

  function Step(w: Window, e: Event): Window
    requires w.head < |w.ring| && forall m :: m in w.byNum ==> w.byNum[m] < |w.ring|
  {
    match e
    case Sent(num, size, time) => OnSent(w, num, size, time)
    case Ack(num) => OnAck(w, num)
    case Loss(num) => OnLoss(w, num)
  }

  function Run(n: nat, events: seq<Event>): (w: Window)
    requires n > 0
    ensures |w.ring| == n && w.head < n && forall m :: m in w.byNum ==> w.byNum[m] < n
  {
    if events == [] then Fresh(n) else Step(Run(n, events[..|events| - 1]), events[|events| - 1])
  }

  predicate Live(j: int, k: nat, n: nat) {
    0 <= j < k && k <= j + n
  }

  predicate SamePacket(a: Sample, b: Sample) {
    a.time == b.time && a.num == b.num && a.size == b.size
  }

  /** Whether the index knows a number: its last packet is live, and no earlier packet with that number was
      evicted since, for an eviction forgets the number. */
  ghost predicate Indexed(h: seq<Sample>, n: nat, num: int) {
    var j, k := LastOf(h, num), |h|;
    Live(j, k, n) && forall i :: 0 <= i < j && h[i].num == num ==> i + n <= j || k <= i + n
  }

  /** The ring holds the live packets in the slots of their positions, and the index is exact. */
  ghost predicate Holds(w: Window, n: nat, h: seq<Sample>) {
    var k := |h|;
    && n > 0 && |w.ring| == n && w.head == k % n && w.count == (if k < n then k else n)
    && (forall j :: Live(j, k, n) ==> SamePacket(w.ring[j % n], h[j]))
    && (forall num :: num in w.byNum <==> Indexed(h, n, num))
    && (forall num :: num in w.byNum ==> w.byNum[num] == LastOf(h, num) % n)
  }

  lemma LastOfAppend(h: seq<Sample>, x: Sample, num: int)
    ensures LastOf(h + [x], num) == if x.num == num then |h| else LastOf(h, num)
  {
    assert (h + [x])[..|h|] == h;
  }

  /** Eviction from a full ring forgets the number of the oldest packet, and only that. */
  lemma EvictedIndex(h: seq<Sample>, x: Sample, n: nat, num: int)
    requires n > 0 && x.num != num
    ensures Indexed(h + [x], n, num) <==>
            Indexed(h, n, num) && !(|h| >= n && h[|h| - n].num == num)
  {
    var k, g := |h|, h + [x];
    LastOfAppend(h, x, num);
    assert forall i :: 0 <= i < k ==> g[i] == h[i];
    if k >= n {
      assert g[k - n] == h[k - n];
    }
  }

  lemma SlotOfOldest(k: nat, n: nat)
    requires 0 < n <= k
    ensures (k - n) % n == k % n
  {
    assert k - n == n * (k / n - 1) + k % n by {
      assert n * (k / n - 1) == n * (k / n) - n;
    }
    Unique(k - n, n, k / n - 1, k % n);
  }

  lemma OldestAtHead(w: Window, n: nat, h: seq<Sample>)
    requires Holds(w, n, h) && n <= |h|
    ensures w.ring[w.head].num == h[|h| - n].num
  {
    SlotOfOldest(|h|, n);
    assert Live(|h| - n, |h|, n);
  }

  lemma SentIndex(w: Window, n: nat, h: seq<Sample>, x: Sample, num: int)
    requires Holds(w, n, h)
    ensures var u := OnSent(w, x.num, x.size, x.time);
      && (num in u.byNum <==> Indexed(h + [x], n, num))
      && (num in u.byNum ==> u.byNum[num] == LastOf(h + [x], num) % n)
  {
    LastOfAppend(h, x, num);
    if x.num == num {
      assert Indexed(h + [x], n, num);
    } else {
      EvictedIndex(h, x, n, num);
      if |h| >= n {
        OldestAtHead(w, n, h);
      }
    }
  }

  lemma SentHolds(w: Window, n: nat, h: seq<Sample>, x: Sample)
    requires Holds(w, n, h) && x.verdict.Unknown?
    ensures Holds(OnSent(w, x.num, x.size, x.time), n, h + [x])
  {
    var u, k := OnSent(w, x.num, x.size, x.time), |h|;
    NextRemainder(k, n);
    forall j | Live(j, k + 1, n)
      ensures SamePacket(u.ring[j % n], (h + [x])[j])
    {
      if j < k {
        RemaindersDiffer(j, k, n);
        assert Live(j, k, n);
      }
    }
    forall num
      ensures num in u.byNum <==> Indexed(h + [x], n, num)
      ensures num in u.byNum ==> u.byNum[num] == LastOf(h + [x], num) % n
    {
      SentIndex(w, n, h, x, num);
    }
  }

  lemma {:induction false} LastOfSameNumbers(h: seq<Sample>, g: seq<Sample>, num: int)
    requires |h| == |g| && forall i :: 0 <= i < |h| ==> h[i].num == g[i].num
    ensures LastOf(h, num) == LastOf(g, num)
  {
    var i, j := LastOf(h, num), LastOf(g, num);
  }

  lemma IndexedSameNumbers(h: seq<Sample>, g: seq<Sample>, n: nat, num: int)
    requires |h| == |g| && forall i :: 0 <= i < |h| ==> h[i].num == g[i].num
    ensures LastOf(h, num) == LastOf(g, num) && (Indexed(h, n, num) <==> Indexed(g, n, num))
  {
    LastOfSameNumbers(h, g, num);
  }

  /** Feedback changes verdicts only. */
  lemma FeedbackHolds(w: Window, u: Window, n: nat, h: seq<Sample>, g: seq<Sample>)
    requires Holds(w, n, h) && |g| == |h| && forall i :: 0 <= i < |h| ==> SamePacket(g[i], h[i])
    requires u == w.(ring := u.ring) && |u.ring| == n && forall i :: 0 <= i < n ==> SamePacket(u.ring[i], w.ring[i])
    ensures Holds(u, n, g)
  {
    forall num
      ensures LastOf(h, num) == LastOf(g, num) && (Indexed(h, n, num) <==> Indexed(g, n, num))
    {
      IndexedSameNumbers(h, g, n, num);
    }
    forall j | Live(j, |h|, n)
      ensures SamePacket(u.ring[j % n], g[j])
    {
      assert SamePacket(w.ring[j % n], h[j]);
    }
  }

  lemma {:induction false} RunHolds(n: nat, events: seq<Event>)
    requires n > 0
    ensures Holds(Run(n, events), n, History(events))
  {
    if events == [] {
      Unique(0, n, 0, 0);
    } else {
      var init, e := events[..|events| - 1], events[|events| - 1];
      RunHolds(n, init);
      var w, h := Run(n, init), History(init);
      match e {
        case Sent(num, size, time) => SentHolds(w, n, h, Sample(time, num, size, Unknown));
        case Ack(_) => FeedbackHolds(w, Run(n, events), n, h, History(events));
        case Loss(_) => FeedbackHolds(w, Run(n, events), n, h, History(events));
      }
    }
  }

  // ----- Main results -----

  function Tail(h: seq<Sample>, n: nat): (t: seq<Sample>) {
    if |h| <= n then h else h[|h| - n..]
  }

  lemma RingAt(w: Window, n: nat, h: seq<Sample>, i: nat)
    requires Holds(w, n, h) && i < w.count
    ensures Live(|h| - w.count + i, |h|, n)
    ensures Recent(w)[i] == w.ring[(|h| - w.count + i) % n] && Tail(h, n)[i] == h[|h| - w.count + i]
  {
    VisitedSlot(|h|, w.count, i, n);
  }

  /** After any events, the ring read from its head is the last min(k, N) packets sent, in order. */
  lemma RingIsLastSent(n: nat, events: seq<Event>)
    requires n > 0
    ensures var r, t := Recent(Run(n, events)), Tail(History(events), n);
      |r| == |t| && forall i :: 0 <= i < |r| ==> SamePacket(r[i], t[i])
  {
    RunHolds(n, events);
    var w, h := Run(n, events), History(events);
    forall i | 0 <= i < w.count
      ensures SamePacket(Recent(w)[i], Tail(h, n)[i])
    {
      RingAt(w, n, h, i);
    }
  }

  /** After any events, an index entry names a slot that holds a live packet with that number, the latest one;
      and a number is missing exactly when its latest packet has left the window or an earlier packet with the
      same number left it meanwhile. */
  lemma IndexIsExact(n: nat, events: seq<Event>, num: int)
    requires n > 0
    ensures var w, h := Run(n, events), History(events);
      && (num in w.byNum <==> Indexed(h, n, num))
      && (num in w.byNum ==> w.byNum[num] == LastOf(h, num) % n && w.ring[w.byNum[num]].num == num)
  {
    RunHolds(n, events);
    var w, h := Run(n, events), History(events);
    if num in w.byNum {
      assert SamePacket(w.ring[LastOf(h, num) % n], h[LastOf(h, num)]);
    }
  }

  /** No number is used twice within a window. */
  ghost predicate Spaced(h: seq<Sample>, n: nat) {
    forall i, j :: 0 <= i < j < |h| && h[i].num == h[j].num ==> i + n <= j
  }

  lemma SpacedIndexesAll(n: nat, events: seq<Event>, j: nat)
    requires n > 0 && Spaced(History(events), n) && Live(j, |History(events)|, n)
    ensures var w, h := Run(n, events), History(events);
      LastOf(h, h[j].num) == j && h[j].num in w.byNum && w.byNum[h[j].num] == j % n
  {
    IndexIsExact(n, events, History(events)[j].num);
  }

  /** A number written twice in a row, as the connection tracer does: once its first copy is evicted, feedback
      about the second, which is still live, is ignored. */
  lemma DoubledSendsLoseFeedback(n: nat, events: seq<Event>)
    requires n >= 2
    requires var h := History(events);
      && |h| > n && h[|h| - n - 1].num == h[|h| - n].num && LastOf(h, h[|h| - n].num) == |h| - n
    ensures var w, h := Run(n, events), History(events);
      && Live(|h| - n, |h|, n) && OnAck(w, h[|h| - n].num) == w && OnLoss(w, h[|h| - n].num) == w
  {
    var h := History(events);
    var num := h[|h| - n].num;
    IndexIsExact(n, events, num);
    assert h[|h| - n - 1].num == num;
  }

  // ----- The order of feedback does not matter -----

  ghost predicate IndexOk(w: Window) {
    forall m :: m in w.byNum ==> w.byNum[m] < |w.ring| && w.ring[w.byNum[m]].num == m
  }

  function Feed(w: Window, es: seq<Event>): Window
    requires IndexOk(w) && forall i :: 0 <= i < |es| ==> !es[i].Sent?
    decreases |es|
  {
    if es == [] then w
    else
      var u := if es[0].Ack? then OnAck(w, es[0].num) else OnLoss(w, es[0].num);
      assert IndexOk(u) by {
        assert u.byNum == w.byNum && forall i :: 0 <= i < |w.ring| ==> u.ring[i].num == w.ring[i].num;
      }
      Feed(u, es[1..])
  }

  /** A packet's verdict from what was known before and from which feedback came, in whatever order. */
  function Settled(s: Sample, acked: bool, lost: bool): Verdict {
    if acked || s.verdict.Acked? then Acked
    else if lost || s.verdict.Lost? then Lost
    else Unknown
  }

  /** Feedback about `num`, or about none, settles the slot of `num` and touches nothing else. */
  lemma {:induction false} FeedSettles(w: Window, es: seq<Event>)
    requires IndexOk(w) && forall i :: 0 <= i < |es| ==> !es[i].Sent?
    ensures var u := Feed(w, es);
      && u == w.(ring := u.ring) && |u.ring| == |w.ring|
      && forall i :: 0 <= i < |w.ring| ==>
           var s := w.ring[i]; var here := s.num in w.byNum && w.byNum[s.num] == i;
           u.ring[i] == s.(verdict := Settled(s, here && Ack(s.num) in es, here && Loss(s.num) in es))
    decreases |es|
  {
    if es != [] {
      var v := if es[0].Ack? then OnAck(w, es[0].num) else OnLoss(w, es[0].num);
      assert IndexOk(v) by {
        assert v.byNum == w.byNum && forall i :: 0 <= i < |w.ring| ==> v.ring[i].num == w.ring[i].num;
      }
      FeedSettles(v, es[1..]);
      assert es == [es[0]] + es[1..];
    }
  }

  /** Acknowledgements and losses in any order, with any repetitions, leave the same ring. */
  lemma FeedbackOrderIrrelevant(w: Window, a: seq<Event>, b: seq<Event>)
    requires IndexOk(w)
    requires forall i :: 0 <= i < |a| ==> !a[i].Sent?
    requires forall i :: 0 <= i < |b| ==> !b[i].Sent?
    requires forall e :: e in a <==> e in b
    ensures Feed(w, a) == Feed(w, b)
  {
    FeedSettles(w, a);
    FeedSettles(w, b);
    assert Feed(w, a).ring == Feed(w, b).ring;
  }
}
