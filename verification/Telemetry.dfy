/** The connection logger: the packet window or the time slices, depending on its mode, and the metrics read
    from them. */
module Telemetry {
  import opened DoubledPackets
  import opened PacketVerdicts
  import opened PacketWindow
  import opened SampleSlices

  // ----- Runs, one event at a time -----

  lemma {:induction false} HistoryStamped(events: seq<Event>)
    requires forall i :: 0 <= i < |events| && events[i].Sent? ==> events[i].time > 0
    ensures forall i :: 0 <= i < |History(events)| ==> History(events)[i].time > 0
  {
    if events != [] {
      HistoryStamped(events[..|events| - 1]);
    }
  }

  /** No live slot is blank, so the metrics loop skips none. */
  lemma LiveIsStamped(n: nat, events: seq<Event>)
    requires n > 0 && forall i :: 0 <= i < |events| && events[i].Sent? ==> events[i].time > 0
    ensures var r := Recent(Run(n, events)); forall i :: 0 <= i < |r| ==> r[i].time > 0
  {
    RingIsLastSent(n, events);
    HistoryStamped(events);
  }

  // ----- Sums over a window -----

  function Count(s: seq<Sample>, v: Verdict): nat {
    if s == [] then 0 else Count(s[..|s| - 1], v) + if s[|s| - 1].verdict == v then 1 else 0
  }

  function SumSizes(s: seq<Sample>): int {
    if s == [] then 0 else SumSizes(s[..|s| - 1]) + s[|s| - 1].size
  }

  lemma {:induction false} CountsBounded(s: seq<Sample>)
    ensures Count(s, Acked) + Count(s, Lost) <= |s|
  {
    if s != [] {
      CountsBounded(s[..|s| - 1]);
    }
  }

  ghost predicate Tallied(s: seq<Sample>, acked: nat, lost: nat, bytes: int) {
    acked == Count(s, Acked) && lost == Count(s, Lost) && bytes == SumSizes(s)
  }

  lemma TallyStep(r: seq<Sample>, i: nat, acked: nat, lost: nat, bytes: int)
    requires i < |r| && Tallied(r[..i], acked, lost, bytes)
    ensures Tallied(r[..i + 1], acked + (if r[i].verdict.Acked? then 1 else 0),
                    lost + (if r[i].verdict.Lost? then 1 else 0), bytes + r[i].size)
  {
    assert r[..i + 1][..i] == r[..i];
  }

  /** When no news is for a packet the index has forgotten, the counts and the sum are those of the last N packets
      of the full history. */
  lemma {:induction false} MetricsMatchHistory(n: nat, events: seq<Event>)
    requires n > 0 && AllHeard(n, events)
    ensures var r, t := Recent(Run(n, events)), Tail(History(events), n);
      && |r| == |t| <= n && Count(r, Acked) == Count(t, Acked) && Count(r, Lost) == Count(t, Lost)
      && SumSizes(r) == SumSizes(t) && Count(r, Acked) + Count(r, Lost) <= |r|
  {
    RingRefinesHistoryIff(n, events);
    assert events[..|events|] == events;
    assert Refines(n, events);
    CountsBounded(Recent(Run(n, events)));
  }

  /** Where the first copies stand in a window that starts `off` packets into a pair. */
  predicate IsFirst(i: nat, off: nat) {
    (i + off) % 2 == 0
  }

  ghost predicate Alternates(s: seq<Sample>, off: nat) {
    forall i :: 0 <= i < |s| && IsFirst(i, off) ==> s[i].verdict.Unknown?
  }

  lemma {:induction false} HalfSettled(s: seq<Sample>, off: nat)
    requires off < 2 && Alternates(s, off)
    ensures Count(s, Acked) + Count(s, Lost) <= (|s| + off) / 2
  {
    if s != [] {
      HalfSettled(s[..|s| - 1], off);
      assert !s[|s| - 1].verdict.Unknown? ==> !IsFirst(|s| - 1, off);
    }
  }

  lemma SameParity(k: nat, c: nat, i: nat)
    requires k % 2 == 0 && c <= k && IsFirst(i, c % 2)
    ensures (k - c + i) % 2 == 0
  {}

  lemma UnsettledAt(w: Window, n: nat, h: seq<Sample>, j: nat)
    requires RingUnsettled(w, n, h) && Live(j, |h|, n) && j % 2 == 0
    ensures w.ring[j % n].verdict.Unknown?
  {}

  lemma RecentUnsettled(w: Window, n: nat, h: seq<Sample>, i: nat)
    requires RingUnsettled(w, n, h) && |h| % 2 == 0 && i < w.count && IsFirst(i, w.count % 2)
    ensures Recent(w)[i].verdict.Unknown?
  {
    SameParity(|h|, w.count, i);
    RingAt(w, n, h, i);
    UnsettledAt(w, n, h, |h| - w.count + i);
  }

  lemma RecentAlternates(w: Window, n: nat, h: seq<Sample>)
    requires RingUnsettled(w, n, h) && |h| % 2 == 0
    ensures Alternates(Recent(w), w.count % 2)
  {
    forall i | 0 <= i < w.count && IsFirst(i, w.count % 2)
      ensures Recent(w)[i].verdict.Unknown?
    {
      RecentUnsettled(w, n, h, i);
    }
  }

  /** Of two packets one has a verdict; of an odd number one more. */
  ghost predicate AtMostHalf(r: seq<Sample>) {
    2 * (Count(r, Acked) + Count(r, Lost)) <= |r| + |r| % 2
  }

  lemma HalfOf(r: seq<Sample>)
    requires Alternates(r, |r| % 2)
    ensures AtMostHalf(r)
  {
    HalfSettled(r, |r| % 2);
  }

  lemma RingHalf(w: Window, n: nat, h: seq<Sample>, nums: seq<int>)
    requires RingUnsettled(w, n, h) && Doubles(h, nums)
    ensures AtMostHalf(Recent(w))
  {
    PairsEven(h, nums);
    RecentAlternates(w, n, h);
    AlternatesHalf(Recent(w), w.count);
  }

  lemma PairsEven(h: seq<Sample>, nums: seq<int>)
    requires Doubles(h, nums)
    ensures |h| % 2 == 0
  {}

  lemma AlternatesHalf(r: seq<Sample>, c: nat)
    requires |r| == c && Alternates(r, c % 2)
    ensures AtMostHalf(r)
  {
    HalfOf(r);
  }

  /** The connection tracer's stream, whatever its packet numbers: at most half of the packets reported as sent, one
      more in a window of odd size, are ever reported as acknowledged or lost; and when no news was missed, the
      packets counted are those of the full history. */
  lemma {:induction false} DoubledMetrics(n: nat, items: seq<Item>)
    requires n > 0
    ensures AtMostHalf(Recent(Run(n, Events(items))))
    ensures NoneMissed(n, items) ==> Recent(Run(n, Events(items))) == Tail(History(Events(items)), n)
  {
    DoubledHalf(n, items);
    if NoneMissed(n, items) {
      NoneMissedRefines(n, items);
    }
  }

  lemma {:induction false} DoubledHalf(n: nat, items: seq<Item>)
    requires n > 0
    ensures AtMostHalf(Recent(Run(n, Events(items))))
  {
    DoubledUnsettled(n, items);
    EventsDouble(items);
    RingHalf(Run(n, Events(items)), n, History(Events(items)), Numbers(items));
  }

  lemma {:induction false} NoneMissedRefines(n: nat, items: seq<Item>)
    requires n > 0 && NoneMissed(n, items)
    ensures Refines(n, Events(items))
  {
    DoubledRefinesIff(n, items);
    assert Events(items)[..|Events(items)|] == Events(items);
  }

  const SECOND := 1_000_000_000

  /** From the first to the last packet of the window; a second when that says nothing. */
  function Span(s: seq<Sample>): int {
    if s == [] then 0
    else if s[|s| - 1].time > s[0].time then s[|s| - 1].time - s[0].time
    else SECOND
  }

  // ----- Loss -----

  /** The lost share of the packets with a verdict, in percent; zero when there is none. */
  function LossRate(acked: nat, lost: nat): (r: real)
    ensures 0.0 <= r <= 100.0
    ensures acked + lost > 0 ==> r * (acked + lost) as real == 100.0 * lost as real
    ensures acked + lost == 0 ==> r == 0.0
  {
    if acked + lost == 0 then 0.0
    else
      RateBounded(acked, lost);
      Quotient(lost as real * 100.0, (acked + lost) as real);
      lost as real * 100.0 / (acked + lost) as real
  }

  lemma RateBounded(acked: nat, lost: nat)
    requires acked + lost > 0
    ensures 0.0 <= lost as real * 100.0 / (acked + lost) as real <= 100.0
  {
    Fraction(lost as real * 100.0, (acked + lost) as real);
  }

  lemma Quotient(x: real, d: real)
    requires d > 0.0
    ensures x / d * d == x
  {}

  lemma Fraction(x: real, d: real)
    requires 0.0 <= x <= 100.0 * d && d > 0.0
    ensures 0.0 <= x / d <= 100.0
  {
    var q := x / d;
    assert q * d == x;
    assert (100.0 - q) * d == 100.0 * d - x;
  }

  /** `x` percent of the packets with a verdict were lost; zero when there is none. */
  predicate IsLossRate(x: real, acked: nat, lost: nat) {
    if acked + lost == 0 then x == 0.0 else x * (acked + lost) as real == 100.0 * lost as real
  }

  /** An exponential average that starts over from zero. */
  function Smooth(smoothed: real, loss: real): real {
    if smoothed == 0.0 then loss else 0.2 * loss + 0.8 * smoothed
  }

  function SmoothAll(readings: seq<real>): real {
    if readings == [] then 0.0 else Smooth(SmoothAll(readings[..|readings| - 1]), readings[|readings| - 1])
  }

  lemma SmoothSnoc(readings: seq<real>, x: real)
    ensures SmoothAll(readings + [x]) == Smooth(SmoothAll(readings), x)
  {
    assert (readings + [x])[..|readings|] == readings;
  }

  /** After any readings the smoothed loss lies between the smallest and the largest of them. */
  lemma {:induction false} SmoothedWithin(readings: seq<real>, lo: real, hi: real)
    requires readings != [] && forall i :: 0 <= i < |readings| ==> lo <= readings[i] <= hi
    ensures lo <= SmoothAll(readings) <= hi
  {
    var init := readings[..|readings| - 1];
    if init != [] {
      SmoothedWithin(init, lo, hi);
    }
  }

  // ----- The ring -----

  class PacketRing {
    const winPkts: nat
    var ring: array?<Sample>    // allocated when the first packet is sent
    var ringHead: nat
    var ringCount: nat
    var byNum: map<int, nat>
    ghost var packets: seq<Event>     // all that happened so far

    ghost function View(): Window
      reads this, ring
    {
      Window(if ring == null then seq(winPkts, _ => BLANK) else ring[..], ringHead, ringCount, byNum)
    }

    ghost predicate Valid()
      reads this, ring
    {
      && winPkts > 0 && View() == Run(winPkts, packets)
      && (if ring != null then ring.Length == winPkts else ringCount == 0 && byNum == map[])
      && (forall i :: 0 <= i < |packets| && packets[i].Sent? ==> packets[i].time > 0)
    }

    constructor (winPkts: int)
      ensures Valid() && packets == [] && ring == null && this.winPkts == if winPkts <= 0 then 100 else winPkts
    {
      this.winPkts := if winPkts <= 0 then 100 else winPkts;
      ring, ringHead, ringCount, byNum, packets := null, 0, 0, map[], [];
    }

    method Ensure()
      requires Valid()
      modifies this`ring
      ensures ring != null && Valid() && View() == old(View())
      ensures old(ring) == null ==> fresh(ring)
      ensures old(ring) != null ==> ring == old(ring)
    {
      if ring == null {
        ring := new Sample[winPkts](_ => BLANK);
        assert ring[..] == seq(winPkts, _ => BLANK);
      }
    }

    /** Writes one packet over the oldest, in a ring that is there. */
    method Insert(number: int, size: int, time: nat)
      requires winPkts > 0 && ring != null && ring.Length == winPkts && ringHead < winPkts
      modifies this`ringHead, this`ringCount, this`byNum, ring
      ensures View() == OnSent(old(View()), number, size, time)
    {
      var idx := ringHead;
      if ringCount == winPkts {
        var oldest := ring[idx];
        byNum := byNum - {oldest.num};
      } else {
        ringCount := ringCount + 1;
      }
      ring[idx] := Sample(time, number, size, Unknown);
      byNum := byNum[number := idx];
      ringHead := (ringHead + 1) % winPkts;
    }

    method Sent(number: int, size: int, time: nat)
      requires Valid() && time > 0
      modifies this, ring
      ensures Valid() && packets == old(packets) + [Event.Sent(number, size, time)]
      ensures old(ring) == null ==> fresh(ring)
      ensures old(ring) != null ==> ring == old(ring)
    {
      Ensure();
      Insert(number, size, time);
      RunSnoc(winPkts, packets, Event.Sent(number, size, time));
      packets := packets + [Event.Sent(number, size, time)];
    }

    /** The array and the index fit together. */
    ghost predicate Shaped()
      reads this, ring
    {
      && winPkts > 0 && ringHead < winPkts && ringCount <= winPkts
      && (if ring != null then ring.Length == winPkts else ringCount == 0 && byNum == map[])
      && forall m :: m in byNum ==> byNum[m] < winPkts
    }

    method MarkAcked(number: int)
      requires Shaped()
      modifies ring
      ensures View() == OnAck(old(View()), number)
    {
      if number in byNum {
        ring[byNum[number]] := ring[byNum[number]].(verdict := Acked);
      }
    }

    method MarkLost(number: int)
      requires Shaped()
      modifies ring
      ensures View() == OnLoss(old(View()), number)
    {
      if number in byNum && ring[byNum[number]].verdict == Unknown {
        ring[byNum[number]] := ring[byNum[number]].(verdict := Lost);
      }
    }

    method Ack(number: int)
      requires Valid()
      modifies this, ring
      ensures Valid() && packets == old(packets) + [Event.Ack(number)] && ring == old(ring)
    {
      ValidShape(winPkts, packets);
      MarkAcked(number);
      RunSnoc(winPkts, packets, Event.Ack(number));
      packets := packets + [Event.Ack(number)];
    }

    method Loss(number: int)
      requires Valid()
      modifies this, ring
      ensures Valid() && packets == old(packets) + [Event.Loss(number)] && ring == old(ring)
    {
      ValidShape(winPkts, packets);
      MarkLost(number);
      RunSnoc(winPkts, packets, Event.Loss(number));
      packets := packets + [Event.Loss(number)];
    }

    /** The loop over the ring sees each live packet once, oldest first. */
    method Tally() returns (sent: nat, acked: nat, lost: nat, bytes: int, firstIdx: int, lastIdx: int)
      requires Shaped() && forall i :: 0 <= i < ringCount ==> Recent(View())[i].time > 0
      ensures var r := Recent(View());
        && sent == |r| && acked == Count(r, Acked) && lost == Count(r, Lost) && bytes == SumSizes(r)
        && (r != [] ==> ring != null && 0 <= firstIdx < winPkts && ring[firstIdx] == r[0])
        && (r != [] ==> 0 <= lastIdx < winPkts && ring[lastIdx] == r[|r| - 1])
    {
      sent, acked, lost, bytes, firstIdx, lastIdx := 0, 0, 0, 0, -1, -1;
      ghost var r := Recent(View());
      for i := 0 to ringCount
        invariant sent == i && Tallied(r[..i], acked, lost, bytes)
        invariant i > 0 ==> 0 <= firstIdx < winPkts && ring[firstIdx] == r[0]
        invariant i > 0 ==> 0 <= lastIdx < winPkts && ring[lastIdx] == r[i - 1]
        invariant i == 0 ==> firstIdx == -1
      {
        var idx := (ringHead - ringCount + i + winPkts) % winPkts;
        var s := ring[idx];
        assert s == r[i];
        TallyStep(r, i, acked, lost, bytes);
        if !(s.num == 0 && s.size == 0 && s.time == 0) {
          if firstIdx == -1 {
            firstIdx := idx;
          }
          lastIdx := idx;
          sent := sent + 1;
          bytes := bytes + s.size;
          match s.verdict
          case Acked => acked := acked + 1;
          case Lost => lost := lost + 1;
          case Unknown =>
        }
      }
      assert r[..ringCount] == r;
    }

    method Metrics() returns (sent: nat, acked: nat, lost: nat, bytes: int, span: int)
      requires Valid()
      ensures var r := Recent(View());
        && sent == |r| && acked == Count(r, Acked) && lost == Count(r, Lost) && acked + lost <= sent <= winPkts
        && bytes == SumSizes(r) && span == Span(r)
    {
      ValidShape(winPkts, packets);
      LiveIsStamped(winPkts, packets);
      var firstIdx, lastIdx;
      sent, acked, lost, bytes, firstIdx, lastIdx := Tally();
      CountsBounded(Recent(View()));
      if ringCount == 0 {
        span := 0;
      } else if ring[lastIdx].time > ring[firstIdx].time {
        span := ring[lastIdx].time - ring[firstIdx].time;
      } else {
        span := SECOND;
      }
    }
  }

  lemma ValidShape(n: nat, events: seq<Event>)
    requires n > 0
    ensures var w := Run(n, events); w.head < n && w.count <= n && forall m :: m in w.byNum ==> w.byNum[m] < n
  {
    RunHolds(n, events);
  }

  // ----- The logger -----

  datatype Mode = ByTime | ByPackets

  datatype Rolling = Rolling(sent: int, acked: nat, lost: nat, received: int, sentBytes: int, receivedBytes: int)

  const DEFAULT_WINDOW := 10 * SECOND

  /** What a channel should add up to: all it was ever given, from the cut of the last prune on. */
  function Naive(c: Channel, window: int, log: seq<Timed>): int {
    if log == [] then 0 else Sum(Filter(All(c, log), LastCut(window, log)))
  }

  lemma {:induction false} SumIsNaive(q: Samples, c: Channel, window: int, log: seq<Timed>)
    requires Traced(q, Uncapped, window, log) && Clocked(log)
    ensures Sum(On(q, c)) == Naive(c, window, log)
  {
    if log != [] {
      PruningRefinesHistory(q, c, Uncapped, window, log);
    }
  }

  /** Everything a channel was given from `cut` on, as far as the last prune left it. */
  function NaiveSince(c: Channel, window: int, log: seq<Timed>, cut: int): int {
    if log == [] then 0
    else Sum(Filter(All(c, log), if LastCut(window, log) < cut then cut else LastCut(window, log)))
  }

  lemma {:induction false} SumSinceIsNaive(q: Samples, cap: Cap, window: int, log: seq<Timed>, cut: int)
    requires Traced(q, cap, window, log) && Clocked(log)
    ensures Sum(Filter(On(q, RcvdPkts), cut)) == NaiveSince(RcvdPkts, window, log, cut)
  {
    if log != [] {
      PruningRefinesHistory(q, RcvdPkts, cap, window, log);
      FilterTwice(All(RcvdPkts, log), LastCut(window, log), cut);
    }
  }

  /** The same for received bytes, of which a cap keeps the last samples only. */
  function CappedSince(cap: Cap, window: int, log: seq<Timed>, cut: int): int {
    if log == [] then 0 else Sum(Filter(Trim(Filter(All(RcvdBytes, log), LastCut(window, log)), cap), cut))
  }

  lemma {:induction false} SumBytesSince(q: Samples, cap: Cap, window: int, log: seq<Timed>, cut: int)
    requires Traced(q, cap, window, log) && Clocked(log)
    ensures Sum(Filter(On(q, RcvdBytes), cut)) == CappedSince(cap, window, log, cut)
  {
    if log != [] {
      PruningRefinesHistory(q, RcvdBytes, cap, window, log);
    }
  }

  /** The metric that a channel feeds in time mode. */
  function Fed(m: Rolling, c: Channel): int {
    match c
    case SentPkts => m.sent
    case RcvdPkts => m.received
    case AckedPkts => m.acked
    case LostPkts => m.lost
    case SentBytes => m.sentBytes
    case RcvdBytes => m.receivedBytes
  }

  ghost predicate Sums(m: Rolling, q: Samples) {
    forall c :: Fed(m, c) == Sum(On(q, c))
  }

  /** Every count is what its channel should add up to. */
  ghost predicate TimeCounts(m: Rolling, window: int, log: seq<Timed>) {
    forall c :: Fed(m, c) == Naive(c, window, log)
  }

  lemma {:induction false} SumsAreNaive(m: Rolling, q: Samples, window: int, log: seq<Timed>)
    requires Traced(q, Uncapped, window, log) && Clocked(log) && Sums(m, q)
    ensures TimeCounts(m, window, log)
  {
    forall c
      ensures Fed(m, c) == Naive(c, window, log)
    {
      SumIsNaive(q, c, window, log);
    }
  }

  /** How far back received packets are counted beside the packets of a window. */
  function Reach(r: seq<Sample>): int {
    if Span(r) <= 0 then SECOND else Span(r)
  }

  lemma ReachIs(r: seq<Sample>)
    ensures Span(r) == if r == [] then 0 else Reach(r)
    ensures Reach(r) ==
            if r != [] && r[|r| - 1].time > r[0].time then r[|r| - 1].time - r[0].time else 1_000_000_000
  {}

  /** The counts of packet mode, over the packets `r` of the ring. */
  ghost predicate PacketCounts(m: Rolling, r: seq<Sample>, q: Samples, now: int) {
    && m.sent == |r| && m.acked == Count(r, Acked) && m.lost == Count(r, Lost) && m.sentBytes == SumSizes(r)
    && m.received == Sum(Filter(q.rcvdPkts, now - Reach(r)))
    && m.receivedBytes == Sum(Filter(q.rcvdBytes, now - Reach(r)))
  }

  lemma CountsOf(m: Rolling, r: seq<Sample>, q: Samples, now: int, span: int)
    requires m.sent == |r| && m.acked == Count(r, Acked) && m.lost == Count(r, Lost) && m.sentBytes == SumSizes(r)
    requires span == (if Span(r) <= 0 then SECOND else Span(r))
    requires m.received == Sum(Filter(q.rcvdPkts, now - span))
    requires m.receivedBytes == Sum(Filter(q.rcvdBytes, now - span))
    ensures PacketCounts(m, r, q, now)
  {}

  /** What a reading of the logger reports, from the packets `r` of the ring, the slices `q` and all calls so far.
      With a clock that does not go back, the counts of time mode and the received packets and bytes of packet mode
      are naive sums over all calls. */
  ghost predicate Reports(m: Rolling, mode: Mode, r: seq<Sample>, q: Samples, cap: Cap, window: int,
                          log: seq<Timed>, now: int)
  {
    if mode.ByTime? then Clocked(log) ==> TimeCounts(m, window, log)
    else
      && PacketCounts(m, r, q, now)
      && (Clocked(log) ==> ReceivedCounts(m, cap, window, log, now - Reach(r)))
  }

  ghost predicate ReceivedCounts(m: Rolling, cap: Cap, window: int, log: seq<Timed>, cut: int) {
    m.received == NaiveSince(RcvdPkts, window, log, cut) && m.receivedBytes == CappedSince(cap, window, log, cut)
  }

  lemma {:induction false} ReceivedSince(m: Rolling, q: Samples, cap: Cap, window: int, log: seq<Timed>, cut: int)
    requires Traced(q, cap, window, log) && Clocked(log)
    requires m.received == Sum(Filter(On(q, RcvdPkts), cut)) && m.receivedBytes == Sum(Filter(On(q, RcvdBytes), cut))
    ensures ReceivedCounts(m, cap, window, log, cut)
  {
    SumSinceIsNaive(q, cap, window, log, cut);
    SumBytesSince(q, cap, window, log, cut);
  }

  lemma {:induction false} PacketReports(m: Rolling, r: seq<Sample>, q: Samples, cap: Cap, window: int,
                                         log: seq<Timed>, now: int)
    requires Traced(q, cap, window, log) && PacketCounts(m, r, q, now)
    ensures Reports(m, ByPackets, r, q, cap, window, log, now)
  {
    if Clocked(log) {
      CountsReceived(m, r, q, now);
      ReceivedSince(m, q, cap, window, log, now - Reach(r));
    }
    PacketsReported(m, r, q, cap, window, log, now);
  }

  lemma CountsReceived(m: Rolling, r: seq<Sample>, q: Samples, now: int)
    requires PacketCounts(m, r, q, now)
    ensures m.received == Sum(Filter(On(q, RcvdPkts), now - Reach(r)))
    ensures m.receivedBytes == Sum(Filter(On(q, RcvdBytes), now - Reach(r)))
  {}

  lemma PacketsReported(m: Rolling, r: seq<Sample>, q: Samples, cap: Cap, window: int, log: seq<Timed>, now: int)
    requires PacketCounts(m, r, q, now) && (Clocked(log) ==> ReceivedCounts(m, cap, window, log, now - Reach(r)))
    ensures Reports(m, ByPackets, r, q, cap, window, log, now)
  {}

  lemma {:induction false} TimeReports(m: Rolling, r: seq<Sample>, q: Samples, window: int, log: seq<Timed>, now: int)
    requires Traced(q, Uncapped, window, log) && Sums(m, q)
    ensures Reports(m, ByTime, r, q, Uncapped, window, log, now)
  {
    if Clocked(log) {
      SumsAreNaive(m, q, window, log);
    }
  }

  class QuicLogger {
    const mode: Mode
    const window: int
    const packets: PacketRing
    const cap: Cap              // received bytes are capped in packet mode
    var sentPkts: seq<Stamp>
    var rcvdPkts: seq<Stamp>
    var ackedPkts: seq<Stamp>
    var lostPkts: seq<Stamp>
    var sentBytes: seq<Stamp>
    var rcvdBytes: seq<Stamp>
    var smoothedLoss: real
    ghost var log: seq<Timed>         // all calls that touched the slices
    ghost var readings: seq<real>     // all loss rates that were smoothed

    ghost function Slices(): Samples
      reads this
    {
      Samples(sentPkts, rcvdPkts, ackedPkts, lostPkts, sentBytes, rcvdBytes)
    }

    ghost predicate Configured()
      reads this`ackedPkts, this`lostPkts
    {
      && cap == (if mode.ByPackets? then Capped(2 * packets.winPkts) else Uncapped)
      && Ones(ackedPkts) && Ones(lostPkts)
    }

    /** The smoothed loss is that of all readings so far. */
    ghost predicate Smoothing()
      reads this`smoothedLoss, this`readings
    {
      && smoothedLoss == SmoothAll(readings)
      && forall i :: 0 <= i < |readings| ==> 0.0 <= readings[i] <= 100.0
    }

    /** The slices are those of the calls so far. */
    ghost predicate Tracing()
      reads this
    {
      Configured() && Traced(Slices(), cap, window, log)
    }

    ghost predicate Valid()
      reads this
    {
      Tracing() && Smoothing()
    }

    constructor (mode: Mode, window: int, ring: PacketRing)
      ensures Valid() && log == [] && readings == [] && packets == ring && this.mode == mode
      ensures this.window == if window <= 0 then 10_000_000_000 else window
    {
      this.mode := mode;
      this.window := if window <= 0 then DEFAULT_WINDOW else window;
      packets := ring;
      cap := if mode.ByPackets? then Capped(2 * ring.winPkts) else Uncapped;
      sentPkts, rcvdPkts, ackedPkts, lostPkts, sentBytes, rcvdBytes := [], [], [], [], [], [];
      smoothedLoss, readings, log := 0.0, [], [];
    }

    method PrunePackets(cut: int)
      modifies this`sentPkts, this`rcvdPkts, this`ackedPkts, this`lostPkts
      ensures sentPkts == Prune(old(sentPkts), cut) && rcvdPkts == Prune(old(rcvdPkts), cut)
      ensures ackedPkts == Prune(old(ackedPkts), cut) && lostPkts == Prune(old(lostPkts), cut)
    {
      sentPkts := PruneStamps(sentPkts, cut);
      rcvdPkts := PruneStamps(rcvdPkts, cut);
      ackedPkts := PruneStamps(ackedPkts, cut);
      lostPkts := PruneStamps(lostPkts, cut);
    }

    method PruneBytes(cut: int)
      requires cap == (if mode.ByPackets? then Capped(2 * packets.winPkts) else Uncapped)
      modifies this`sentBytes, this`rcvdBytes
      ensures sentBytes == Prune(old(sentBytes), cut) && rcvdBytes == Trim(Prune(old(rcvdBytes), cut), cap)
    {
      sentBytes := PruneStamps(sentBytes, cut);
      rcvdBytes := PruneStamps(rcvdBytes, cut);
      if mode == ByPackets && |rcvdBytes| > 2 * packets.winPkts {
        rcvdBytes := rcvdBytes[|rcvdBytes| - 2 * packets.winPkts..];
      }
    }

    /** All six slices, whatever the mode. */
    method PruneSlices(cut: int)
      requires Configured()
      modifies this`sentPkts, this`rcvdPkts, this`ackedPkts, this`lostPkts, this`sentBytes, this`rcvdBytes
      ensures Configured() && Pruned(Slices(), old(Slices()), cap, cut)
    {
      PruneKeeps(ackedPkts, cut);
      PruneKeeps(lostPkts, cut);
      PrunePackets(cut);
      PruneBytes(cut);
    }

    ghost method Note(e: Timed)
      requires Configured() && Traced(Slices(), cap, window, log + [e])
      modifies this`log
      ensures Tracing() && log == old(log) + [e]
    {
      log := log + [e];
    }

    /** Ends every call; `e` is what was appended to `was`. */
    method PruneAll(now: int, ghost was: Samples, ghost e: Timed)
      requires Configured() && Traced(was, cap, window, log) && Appended(Slices(), was, e) && e.now == now
      modifies this`sentPkts, this`rcvdPkts, this`ackedPkts, this`lostPkts, this`sentBytes, this`rcvdBytes, this`log
      ensures Tracing() && log == old(log) + [e]
    {
      ghost var mid := Slices();
      PruneSlices(now - window);
      TracedStep(was, mid, Slices(), cap, window, log, e);
      Note(e);
    }

    method Tick(now: int)
      requires Tracing()
      modifies this`sentPkts, this`rcvdPkts, this`ackedPkts, this`lostPkts, this`sentBytes, this`rcvdBytes, this`log
      ensures Tracing() && log == old(log) + [Timed(Ticks, now, now)]
    {
      PruneAll(now, Slices(), Timed(Ticks, now, now));
    }

    method AddSent(size: int, now: int)
      requires Tracing()
      modifies this`sentPkts, this`rcvdPkts, this`ackedPkts, this`lostPkts, this`sentBytes, this`rcvdBytes, this`log
      ensures Tracing() && log == old(log) + [Timed(Sends(size), now, now)]
    {
      ghost var was := Slices();
      sentPkts := sentPkts + [Stamp(now, 1)];
      sentBytes := sentBytes + [Stamp(now, size)];
      SentAppended(was, Timed(Sends(size), now, now));
      PruneAll(now, was, Timed(Sends(size), now, now));
    }

    method AddAck(at: int, now: int)
      requires Tracing()
      modifies this`sentPkts, this`rcvdPkts, this`ackedPkts, this`lostPkts, this`sentBytes, this`rcvdBytes, this`log
      ensures Tracing() && log == old(log) + [Timed(Acks, at, now)]
    {
      ghost var was := Slices();
      ackedPkts := ackedPkts + [Stamp(at, 1)];
      AckAppended(was, Timed(Acks, at, now));
      PruneAll(now, was, Timed(Acks, at, now));
    }

    method AddLoss(at: int, now: int)
      requires Tracing()
      modifies this`sentPkts, this`rcvdPkts, this`ackedPkts, this`lostPkts, this`sentBytes, this`rcvdBytes, this`log
      ensures Tracing() && log == old(log) + [Timed(Loses, at, now)]
    {
      ghost var was := Slices();
      lostPkts := lostPkts + [Stamp(at, 1)];
      LossAppended(was, Timed(Loses, at, now));
      PruneAll(now, was, Timed(Loses, at, now));
    }

    method AddPacket(number: int, size: int, time: nat, now: int)
      requires Valid() && packets.Valid() && time > 0
      modifies this, packets, packets.ring
      ensures Valid() && packets.Valid() && readings == old(readings)
      ensures packets.packets == old(packets.packets) + [Event.Sent(number, size, time)]
      ensures log == old(log) + [Timed(Ticks, now, now)]
    {
      packets.Sent(number, size, time);
      Tick(now);
    }

    method Sent(number: int, size: int, time: nat, now: int)
      requires Valid() && packets.Valid() && time > 0
      modifies this, packets, packets.ring
      ensures Valid() && packets.Valid() && readings == old(readings)
      ensures packets.packets == old(packets.packets) + if mode.ByPackets? then [Event.Sent(number, size, time)] else []
      ensures log == old(log) + [Timed(if mode.ByPackets? then Ticks else Sends(size), now, now)]
    {
      if mode == ByPackets {
        AddPacket(number, size, time, now);
      } else {
        AddSent(size, now);
      }
    }

    method Received(size: int, now: int)
      requires Valid()
      modifies this
      ensures Valid() && readings == old(readings) && log == old(log) + [Timed(Receives(size), now, now)]
    {
      ghost var was := Slices();
      rcvdPkts := rcvdPkts + [Stamp(now, 1)];
      rcvdBytes := rcvdBytes + [Stamp(now, size)];
      ReceivedAppended(was, Timed(Receives(size), now, now));
      PruneAll(now, was, Timed(Receives(size), now, now));
    }

    method Acknowledged(number: int, at: int, now: int)
      requires Valid() && packets.Valid()
      modifies this, packets, packets.ring
      ensures Valid() && packets.Valid() && readings == old(readings)
      ensures packets.packets == old(packets.packets) + if mode.ByPackets? then [Event.Ack(number)] else []
      ensures log == old(log) + if mode.ByPackets? then [] else [Timed(Acks, at, now)]
    {
      if mode == ByPackets {
        packets.Ack(number);
      } else {
        AddAck(at, now);
      }
    }

    method Lost(number: int, at: int, now: int)
      requires Valid() && packets.Valid()
      modifies this, packets, packets.ring
      ensures Valid() && packets.Valid() && readings == old(readings)
      ensures packets.packets == old(packets.packets) + if mode.ByPackets? then [Event.Loss(number)] else []
      ensures log == old(log) + if mode.ByPackets? then [] else [Timed(Loses, at, now)]
    {
      if mode == ByPackets {
        packets.Loss(number);
      } else {
        AddLoss(at, now);
      }
    }

    /** The smoothed loss stays in range whatever was read before. */
    method Smoothed(acked: nat, lost: nat) returns (loss: real)
      requires Smoothing()
      modifies this`smoothedLoss, this`readings
      ensures Smoothing() && |readings| == |old(readings)| + 1 && readings[..|old(readings)|] == old(readings)
      ensures loss == smoothedLoss && 0.0 <= loss <= 100.0
      ensures var x, s := readings[|readings| - 1], old(smoothedLoss);
        IsLossRate(x, acked, lost) && (s == 0.0 ==> loss == x) && (s != 0.0 ==> loss - x == 0.8 * (s - x))
    {
      var reading := LossRate(acked, lost);
      SmoothSnoc(readings, reading);
      smoothedLoss := if smoothedLoss == 0.0 then reading else 0.2 * reading + 0.8 * smoothedLoss;
      readings := readings + [reading];
      SmoothedWithin(readings, 0.0, 100.0);
      loss := smoothedLoss;
    }

    /** Packets and bytes received from `cut` on, as far as the slices hold them. */
    method ReceivedFrom(cut: int) returns (received: int, bytes: int)
      ensures received == Sum(Filter(Slices().rcvdPkts, cut)) && bytes == Sum(Filter(Slices().rcvdBytes, cut))
    {
      bytes := SumSince(rcvdBytes, cut);
      received := SumSince(rcvdPkts, cut);
    }

    /** What packet mode counts. */
    method CountPackets(now: int) returns (m: Rolling)
      requires packets.Valid()
      ensures PacketCounts(m, Recent(packets.View()), Slices(), now)
    {
      var sent, acked, lost, bytes, span := packets.Metrics();
      if span <= 0 {
        span := SECOND;
      }
      var received, receivedBytes := ReceivedFrom(now - span);
      m := Rolling(sent, acked, lost, received, bytes, receivedBytes);
      CountsOf(m, Recent(packets.View()), Slices(), now, span);
    }

    /** What time mode counts. */
    method CountSlices() returns (m: Rolling)
      requires Ones(ackedPkts) && Ones(lostPkts)
      ensures Sums(m, Slices())
    {
      var sent := SumStamps(sentPkts);
      var acked := SumStamps(ackedPkts);
      var lost := SumStamps(lostPkts);
      var received := SumStamps(rcvdPkts);
      var bytes := SumStamps(sentBytes);
      var receivedBytes := SumStamps(rcvdBytes);
      SumOfOnes(ackedPkts);
      SumOfOnes(lostPkts);
      m := Rolling(sent, acked, lost, received, bytes, receivedBytes);
    }

    method Measure(now: int) returns (m: Rolling)
      requires Valid() && packets.Valid()
      ensures Reports(m, mode, Recent(packets.View()), Slices(), cap, window, log, now)
    {
      ghost var r := Recent(packets.View());
      if mode == ByPackets {
        m := CountPackets(now);
        PacketReports(m, r, Slices(), cap, window, log, now);
      } else {
        m := CountSlices();
        TimeReports(m, r, Slices(), window, log, now);
      }
    }

    /** The counts, and the loss smoothed over all readings so far. */
    method GetRollingMetrics(now: int) returns (m: Rolling, loss: real)
      requires Valid() && packets.Valid()
      modifies this`smoothedLoss, this`readings
      ensures Valid() && |readings| == |old(readings)| + 1 && readings[..|old(readings)|] == old(readings)
      ensures loss == smoothedLoss && 0.0 <= loss <= 100.0
      ensures var x, s := readings[|readings| - 1], old(smoothedLoss);
        IsLossRate(x, m.acked, m.lost) && (s == 0.0 ==> loss == x) && (s != 0.0 ==> loss - x == 0.8 * (s - x))
      ensures Reports(m, mode, Recent(packets.View()), Slices(), cap, window, log, now)
    {
      m := Measure(now);
      loss := Smoothed(m.acked, m.lost);
    }
  }
}
