/** A stream that records every packet twice, as the connection tracer does, with packet numbers used in any way:
    the tracer puts the packets of all number spaces into one ring. */
module DoubledPackets {
  import opened Modular
  import opened PacketWindow
  import opened PacketVerdicts

  /** What the tracer reports: a packet, recorded at two times, or feedback. */
  datatype Item = Packet(num: int, size: int, first: nat, second: nat) | Heard(num: int, acked: bool)

  function EventOf(i: Item): Event
    requires i.Heard?
  {
    if i.acked then Ack(i.num) else Loss(i.num)
  }

  function Events(items: seq<Item>): seq<Event> {
    if items == [] then []
    else
      var i := items[|items| - 1];
      Events(items[..|items| - 1]) +
      if i.Packet? then [Sent(i.num, i.size, i.first), Sent(i.num, i.size, i.second)] else [EventOf(i)]
  }

  function Numbers(items: seq<Item>): seq<int> {
    if items == [] then []
    else
      var i := items[|items| - 1];
      Numbers(items[..|items| - 1]) + if i.Packet? then [i.num] else []
  }

  /** A history in which every packet stands twice in a row. */
  ghost predicate Doubles(h: seq<Sample>, nums: seq<int>) {
    |h| == 2 * |nums| && forall i :: 0 <= i < |h| ==> h[i].num == nums[i / 2]
  }

  lemma {:induction false} HistorySnoc(events: seq<Event>, e: Event)
    ensures History(events + [e]) == HistoryStep(History(events), e)
  {
    assert (events + [e])[..|events|] == events;
  }

  lemma {:induction false} EventsSnoc(items: seq<Item>, i: Item)
    ensures var es := Events(items);
      && Numbers(items + [i]) == Numbers(items) + (if i.Packet? then [i.num] else [])
      && if i.Packet? then Events(items + [i]) == es + [Sent(i.num, i.size, i.first)] + [Sent(i.num, i.size, i.second)]
         else Events(items + [i]) == es + [EventOf(i)]
  {
    assert (items + [i])[..|items|] == items;
  }

  lemma {:induction false} HistoryItem(items: seq<Item>, i: Item)
    ensures var h := History(Events(items));
      History(Events(items + [i])) ==
      if i.Packet? then
        HistoryStep(HistoryStep(h, Sent(i.num, i.size, i.first)), Sent(i.num, i.size, i.second))
      else HistoryStep(h, EventOf(i))
  {
    EventsSnoc(items, i);
    var es := Events(items);
    if i.Packet? {
      HistorySnoc(es, Sent(i.num, i.size, i.first));
      HistorySnoc(es + [Sent(i.num, i.size, i.first)], Sent(i.num, i.size, i.second));
    } else {
      HistorySnoc(es, EventOf(i));
    }
  }

  lemma DoublesTwice(h: seq<Sample>, nums: seq<int>, e: Event, f: Event)
    requires Doubles(h, nums) && e.Sent? && f.Sent? && f.num == e.num
    ensures Doubles(HistoryStep(HistoryStep(h, e), f), nums + [e.num])
  {
    var g := HistoryStep(HistoryStep(h, e), f);
    assert |g| == |h| + 2 && g[..|h|] == h;
  }

  lemma DoublesFeedback(h: seq<Sample>, nums: seq<int>, e: Event)
    requires Doubles(h, nums) && !e.Sent?
    ensures Doubles(HistoryStep(h, e), nums)
  {}

  lemma {:induction false} EventsDouble(items: seq<Item>)
    ensures Doubles(History(Events(items)), Numbers(items))
  {
    if items != [] {
      var init, i := items[..|items| - 1], items[|items| - 1];
      EventsDouble(init);
      var h, nums := History(Events(init)), Numbers(init);
      assert items == init + [i];
      EventsSnoc(init, i);
      HistoryItem(init, i);
      if i.Packet? {
        DoublesTwice(h, nums, Sent(i.num, i.size, i.first), Sent(i.num, i.size, i.second));
      } else {
        DoublesFeedback(h, nums, EventOf(i));
      }
    }
  }

  /** A second copy is the last with its number, if a packet with that number follows only a window later. */
  lemma LastIsSecond(h: seq<Sample>, nums: seq<int>, num: int)
    requires Doubles(h, nums)
    ensures LastOf(h, num) >= 0 ==> LastOf(h, num) % 2 == 1
  {
    var j := LastOf(h, num);
    if 0 <= j && j + 1 < |h| {
      assert h[j + 1].num == nums[(j + 1) / 2] && h[j].num == nums[j / 2];
    }
  }

  // ----- What the index has lost -----

  /** An earlier packet of the same number, less than a window before, has been evicted since. */
  ghost predicate Reused(h: seq<Sample>, n: nat, j: nat)
    requires j < |h|
  {
    exists i :: 0 <= i < j - 1 && h[i].num == h[j].num && j < i + n < |h|
  }

  /** The last packet of the number is live, and it is the oldest of a full window of odd size or its number was
      used before within a window. */
  ghost predicate Forgotten(h: seq<Sample>, n: nat, num: int) {
    var j := LastOf(h, num);
    Live(j, |h|, n) && ((n % 2 == 1 && 1 < n && j == |h| - n) || Reused(h, n, j))
  }

  lemma FirstCopy(h: seq<Sample>, nums: seq<int>, j: nat)
    requires Doubles(h, nums) && j < |h| && j % 2 == 1
    ensures h[j - 1].num == h[j].num
  {
    assert h[j - 1].num == nums[(j - 1) / 2] && h[j].num == nums[j / 2];
  }

  lemma DeafIsForgotten(h: seq<Sample>, nums: seq<int>, n: nat, num: int)
    requires Doubles(h, nums) && Deaf(h, n, num)
    ensures Forgotten(h, n, num)
  {
    var j := LastOf(h, num);
    LastIsSecond(h, nums, num);
    var i :| 0 <= i < j && h[i].num == num && !(i + n <= j || |h| <= i + n);
    if i < j - 1 {
      assert Reused(h, n, j);
    }
  }

  lemma ForgottenIsDeaf(h: seq<Sample>, nums: seq<int>, n: nat, num: int)
    requires Doubles(h, nums) && Forgotten(h, n, num)
    ensures Deaf(h, n, num)
  {
    var j := LastOf(h, num);
    if Reused(h, n, j) {
      var i :| 0 <= i < j - 1 && h[i].num == h[j].num && j < i + n < |h|;
      assert h[i].num == num;
    } else {
      FirstCopy(h, nums, j);
      assert h[j - 1].num == num;
    }
  }

  /** Between packets recorded twice, the index has lost a live number exactly when its last packet is the oldest
      of a full window of odd size above one, or an earlier packet of the number, less than a window before, is gone. */
  lemma DoubledDeafIff(h: seq<Sample>, nums: seq<int>, n: nat, num: int)
    requires Doubles(h, nums)
    ensures Deaf(h, n, num) <==> Forgotten(h, n, num)
  {
    if Deaf(h, n, num) {
      DeafIsForgotten(h, nums, n, num);
    }
    if Forgotten(h, n, num) {
      ForgottenIsDeaf(h, nums, n, num);
    }
  }

  // ----- Every doubled stream -----

  /** Feedback that is missed: something new about a number the index has lost. */
  ghost predicate MissedAfter(n: nat, h: seq<Sample>, i: Item) {
    i.Heard? && Matters(h, EventOf(i)) && Forgotten(h, n, i.num)
  }

  ghost predicate NoneMissed(n: nat, items: seq<Item>) {
    forall i :: 0 <= i < |items| ==> !MissedAfter(n, History(Events(items[..i])), items[i])
  }

  lemma {:induction false} MissedSnoc(n: nat, init: seq<Item>, i: Item)
    ensures NoneMissed(n, init + [i]) <==> NoneMissed(n, init) && !MissedAfter(n, History(Events(init)), i)
  {
    var all := init + [i];
    assert all[..|init|] == init && all[|init|] == i;
    assert forall k :: 0 <= k < |init| ==> all[..k] == init[..k] && all[k] == init[k];
    if NoneMissed(n, all) {
      forall k | 0 <= k < |init|
        ensures !MissedAfter(n, History(Events(init[..k])), init[k])
      {
        assert !MissedAfter(n, History(Events(all[..k])), all[k]);
      }
      assert !MissedAfter(n, History(Events(all[..|init|])), all[|init|]);
    }
  }

  lemma {:induction false} PacketHeard(n: nat, init: seq<Item>, i: Item)
    requires i.Packet?
    ensures AllHeard(n, Events(init + [i])) <==> AllHeard(n, Events(init))
  {
    var es, e := Events(init), Sent(i.num, i.size, i.first);
    EventsSnoc(init, i);
    HeardSnoc(n, es, e);
    HeardSnoc(n, es + [e], Sent(i.num, i.size, i.second));
  }

  lemma IgnoredIff(h: seq<Sample>, nums: seq<int>, n: nat, i: Item)
    requires i.Heard? && Doubles(h, nums)
    ensures Ignored(h, n, EventOf(i)) <==> MissedAfter(n, h, i)
  {
    DoubledDeafIff(h, nums, n, i.num);
  }

  lemma {:induction false} FeedbackHeard(n: nat, init: seq<Item>, i: Item)
    requires i.Heard?
    ensures AllHeard(n, Events(init + [i])) <==>
            AllHeard(n, Events(init)) && !MissedAfter(n, History(Events(init)), i)
  {
    EventsSnoc(init, i);
    HeardSnoc(n, Events(init), EventOf(i));
    EventsDouble(init);
    IgnoredIff(History(Events(init)), Numbers(init), n, i);
  }

  lemma {:induction false} ItemsHeardIff(n: nat, items: seq<Item>)
    ensures AllHeard(n, Events(items)) <==> NoneMissed(n, items)
  {
    if items != [] {
      var init, i := items[..|items| - 1], items[|items| - 1];
      assert items == init + [i];
      ItemsHeardIff(n, init);
      MissedSnoc(n, init, i);
      if i.Packet? {
        PacketHeard(n, init, i);
      } else {
        FeedbackHeard(n, init, i);
      }
    }
  }

  /** The connection tracer's stream, whatever its packet numbers: the ring refines the history throughout, exactly
      when no news is for a number whose last packet is the oldest of a full window of odd size, or whose earlier
      packet within a window was evicted. */
  lemma {:induction false} DoubledRefinesIff(n: nat, items: seq<Item>)
    requires n > 0
    ensures var es := Events(items);
      (forall k :: 0 <= k <= |es| ==> Refines(n, es[..k])) <==> NoneMissed(n, items)
  {
    RingRefinesHistoryIff(n, Events(items));
    ItemsHeardIff(n, items);
  }

  lemma DeafIgnores(w: Window, n: nat, h: seq<Sample>, e: Event)
    requires Holds(w, n, h) && !e.Sent? && !Indexed(h, n, e.num)
    requires w.head < |w.ring| && forall m :: m in w.byNum ==> w.byNum[m] < |w.ring|
    ensures Step(w, e) == w
  {}

  lemma NewsChanges(h: seq<Sample>, e: Event)
    requires Matters(h, e)
    ensures HistoryStep(h, e) != h
  {
    var j := LastOf(h, e.num);
    assert HistoryStep(h, e)[j].verdict != h[j].verdict;
  }

  lemma HoldsBounds(w: Window, n: nat, h: seq<Sample>)
    requires Holds(w, n, h)
    ensures |w.ring| == n && w.head < n && forall m :: m in w.byNum ==> w.byNum[m] < n
  {}

  /** Feedback about `num` changes the history and not the ring. */
  ghost predicate Unheard(w: Window, n: nat, h: seq<Sample>, num: int, acked: bool) {
    && |w.ring| == n && w.head < n && (forall m :: m in w.byNum ==> w.byNum[m] < n)
    && Step(w, EventOf(Heard(num, acked))) == w && HistoryStep(h, EventOf(Heard(num, acked))) != h
  }

  lemma ForgottenUnheard(w: Window, n: nat, h: seq<Sample>, nums: seq<int>, num: int, acked: bool)
    requires Holds(w, n, h) && Doubles(h, nums) && Forgotten(h, n, num) && h[LastOf(h, num)].verdict.Unknown?
    ensures Unheard(w, n, h, num, acked)
  {
    var e := EventOf(Heard(num, acked));
    DoubledDeafIff(h, nums, n, num);
    HoldsBounds(w, n, h);
    DeafIgnores(w, n, h, e);
    NewsChanges(h, e);
  }

  /** The last packet of a number is live and nothing is known about it. */
  ghost predicate Waiting(h: seq<Sample>, n: nat, num: int) {
    Live(LastOf(h, num), |h|, n) && h[LastOf(h, num)].verdict.Unknown?
  }

  /** What it means for the ring: the first feedback about a forgotten number changes nothing. */
  lemma {:induction false} ForgottenMisses(n: nat, items: seq<Item>, num: int, acked: bool)
    requires n > 0 && Forgotten(History(Events(items)), n, num) && Waiting(History(Events(items)), n, num)
    ensures Unheard(Run(n, Events(items)), n, History(Events(items)), num, acked)
  {
    EventsDouble(items);
    RunHolds(n, Events(items));
    ForgottenUnheard(Run(n, Events(items)), n, History(Events(items)), Numbers(items), num, acked);
  }

  // ----- Numbers that do not repeat within a window -----

  /** No number is used for two packets whose copies are in one window. */
  ghost predicate PairsSpaced(nums: seq<int>, n: nat) {
    forall a, b :: 0 <= a < b < |nums| && nums[a] == nums[b] ==> n <= 2 * (b - a)
  }

  /** A live second copy and an earlier record of its number within a window are the two copies of one packet. */
  lemma CopiesAdjoin(nums: seq<int>, n: nat, i: nat, j: nat)
    requires PairsSpaced(nums, n) && i < j < i + n && j % 2 == 1 && j < 2 * |nums| && nums[i / 2] == nums[j / 2]
    ensures i == j - 1
  {}

  /** Then only a window of odd size forgets, and only its oldest packet. */
  lemma SpacedForgets(h: seq<Sample>, nums: seq<int>, n: nat, num: int)
    requires Doubles(h, nums) && PairsSpaced(nums, n) && Forgotten(h, n, num)
    ensures n % 2 == 1 && 1 < n < |h| && LastOf(h, num) == |h| - n
  {
    var j := LastOf(h, num);
    LastIsSecond(h, nums, num);
    if Reused(h, n, j) {
      var i :| 0 <= i < j - 1 && h[i].num == h[j].num && j < i + n < |h|;
      assert h[i].num == nums[i / 2] && h[j].num == nums[j / 2];
      CopiesAdjoin(nums, n, i, j);
    }
  }

  lemma {:induction false} NumbersPrefix(items: seq<Item>, i: nat)
    requires i <= |items|
    ensures Numbers(items[..i]) <= Numbers(items)
    decreases |items| - i
  {
    if i < |items| {
      NumbersPrefix(items, i + 1);
      assert items[..i + 1][..i] == items[..i];
    } else {
      assert items[..i] == items;
    }
  }

  lemma SpacedPrefix(a: seq<int>, b: seq<int>, n: nat)
    requires a <= b && PairsSpaced(b, n)
    ensures PairsSpaced(a, n)
  {}

  lemma EvenMissesNone(h: seq<Sample>, nums: seq<int>, n: nat, i: Item)
    requires Doubles(h, nums) && PairsSpaced(nums, n) && n % 2 == 0
    ensures !MissedAfter(n, h, i)
  {
    if i.Heard? && Forgotten(h, n, i.num) {
      SpacedForgets(h, nums, n, i.num);
    }
  }

  /** So within one number space, where numbers do not repeat, a window of even size loses no feedback. */
  lemma {:induction false} EvenWindowRefines(n: nat, items: seq<Item>)
    requires n > 0 && n % 2 == 0 && PairsSpaced(Numbers(items), n)
    ensures AllHeard(n, Events(items)) && Refines(n, Events(items))
  {
    forall i | 0 <= i < |items|
      ensures !MissedAfter(n, History(Events(items[..i])), items[i])
    {
      NumbersPrefix(items, i);
      SpacedPrefix(Numbers(items[..i]), Numbers(items), n);
      EventsDouble(items[..i]);
      EvenMissesNone(History(Events(items[..i])), Numbers(items[..i]), n, items[i]);
    }
    ItemsHeardIff(n, items);
    RingRefinesHistoryIff(n, Events(items));
    assert Events(items)[..|Events(items)|] == Events(items);
  }

  /** And a full window of odd size above one misses news about its oldest packet, unless its number was used again. */
  lemma {:induction false} OddWindowMisses(n: nat, items: seq<Item>, num: int, acked: bool)
    requires 1 < n && n % 2 == 1 && Waiting(History(Events(items)), n, num)
    requires LastOf(History(Events(items)), num) == |History(Events(items))| - n
    ensures Unheard(Run(n, Events(items)), n, History(Events(items)), num, acked)
  {
    ForgottenMisses(n, items, num, acked);
  }

  // ----- Two number spaces -----

  /** The first packets of a connection, number 0 in two number spaces and then one space only, until the first
      packet has left a window of `n`. */
  function TwoSpaces(n: nat, size: int, time: nat): seq<Item>
    requires n >= 6
  {
    [Packet(0, size, time, time), Packet(1, size, time, time), Packet(0, size, time, time)] +
    seq(n / 2 - 2, k requires 0 <= k => Packet(k + 2, size, time, time))
  }

  lemma {:induction false} PacketNumbers(items: seq<Item>)
    requires forall i :: 0 <= i < |items| ==> items[i].Packet?
    ensures |Numbers(items)| == |items| && forall i :: 0 <= i < |items| ==> Numbers(items)[i] == items[i].num
  {
    if items != [] {
      var init, i := items[..|items| - 1], items[|items| - 1];
      PacketNumbers(init);
      assert items == init + [i];
      EventsSnoc(init, i);
    }
  }

  ghost predicate NothingKnown(h: seq<Sample>) {
    forall i :: 0 <= i < |h| ==> h[i].verdict.Unknown?
  }

  lemma {:induction false} PacketsUnknown(items: seq<Item>)
    requires forall i :: 0 <= i < |items| ==> items[i].Packet?
    ensures NothingKnown(History(Events(items)))
  {
    if items != [] {
      var init, i := items[..|items| - 1], items[|items| - 1];
      PacketsUnknown(init);
      assert items == init + [i];
      HistoryItem(init, i);
    }
  }

  lemma SharedForgotten(h: seq<Sample>, nums: seq<int>, n: nat)
    requires Doubles(h, nums) && 6 <= n && n % 2 == 0 && |nums| == n / 2 + 1
    requires nums[0] == 0 && nums[2] == 0 && forall k :: 3 <= k < |nums| ==> nums[k] != 0
    ensures Forgotten(h, n, 0) && LastOf(h, 0) == 5
  {
    assert h[1].num == nums[1 / 2] && h[5].num == nums[5 / 2];
    forall k | 6 <= k < |h|
      ensures h[k].num != 0
    {
      assert h[k].num == nums[k / 2];
    }
    assert LastOf(h, 0) == 5;
    assert h[1].num == h[5].num && 5 < 1 + n < |h|;
    assert Reused(h, n, 5);
  }

  /** A number used in two spaces at the start of a connection, as 0 is: a window of any even size from 6 on, that of
      the multipath example included, misses the feedback about the later of the two packets. */
  lemma {:induction false} EvenWindowMisses(n: nat, size: int, time: nat, acked: bool)
    requires 6 <= n && n % 2 == 0
    ensures var items := TwoSpaces(n, size, time);
      Unheard(Run(n, Events(items)), n, History(Events(items)), 0, acked)
  {
    var items := TwoSpaces(n, size, time);
    PacketsUnknown(items);
    PacketNumbers(items);
    EventsDouble(items);
    SharedForgotten(History(Events(items)), Numbers(items), n);
    ForgottenMisses(n, items, 0, acked);
  }

  // ----- Only second copies are ever settled -----

  /** No live first copy in the ring has a verdict. */
  ghost predicate RingUnsettled(w: Window, n: nat, h: seq<Sample>) {
    Holds(w, n, h) && forall j :: Live(j, |h|, n) && j % 2 == 0 ==> w.ring[j % n].verdict.Unknown?
  }

  lemma SentUnsettled(w: Window, n: nat, h: seq<Sample>, x: Sample)
    requires RingUnsettled(w, n, h) && x.verdict.Unknown?
    ensures RingUnsettled(OnSent(w, x.num, x.size, x.time), n, h + [x])
  {
    SentHolds(w, n, h, x);
    var u, k := OnSent(w, x.num, x.size, x.time), |h|;
    forall j | Live(j, k + 1, n) && j % 2 == 0
      ensures u.ring[j % n].verdict.Unknown?
    {
      if j < k {
        RemaindersDiffer(j, k, n);
        assert Live(j, k, n);
      }
    }
  }

  lemma SettleUnsettled(w: Window, n: nat, h: seq<Sample>, g: seq<Sample>, nums: seq<int>, num: int, v: Verdict)
    requires RingUnsettled(w, n, h) && Doubles(h, nums)
    requires |g| == |h| && forall i :: 0 <= i < |h| ==> SamePacket(g[i], h[i])
    ensures RingUnsettled(Settle(w, num, v), n, g)
  {
    var u, l := Settle(w, num, v), LastOf(h, num);
    FeedbackHolds(w, u, n, h, g);
    LastIsSecond(h, nums, num);
    forall j | Live(j, |h|, n) && j % 2 == 0
      ensures u.ring[j % n].verdict.Unknown?
    {
      if num in w.byNum {
        RemaindersDiffer(if j < l then j else l, if j < l then l else j, n);
      }
    }
  }

  lemma SameRing(w: Window, n: nat, h: seq<Sample>, g: seq<Sample>)
    requires RingUnsettled(w, n, h)
    requires |g| == |h| && forall i :: 0 <= i < |h| ==> SamePacket(g[i], h[i])
    ensures RingUnsettled(w, n, g)
  {
    FeedbackHolds(w, w, n, h, g);
  }

  lemma FeedbackUnsettled(w: Window, n: nat, h: seq<Sample>, nums: seq<int>, e: Event)
    requires RingUnsettled(w, n, h) && Doubles(h, nums) && !e.Sent?
    requires w.head < |w.ring| && forall m :: m in w.byNum ==> w.byNum[m] < |w.ring|
    ensures RingUnsettled(Step(w, e), n, HistoryStep(h, e))
  {
    var g := HistoryStep(h, e);
    if e.Ack? {
      SettleUnsettled(w, n, h, g, nums, e.num, Acked);
    } else if Step(w, e) == w {
      SameRing(w, n, h, g);
    } else {
      SettleUnsettled(w, n, h, g, nums, e.num, Lost);
    }
  }

  lemma RunSnoc(n: nat, events: seq<Event>, e: Event)
    requires n > 0
    ensures Run(n, events + [e]) == Step(Run(n, events), e)
  {
    assert (events + [e])[..|events|] == events;
  }

  lemma {:induction false} PacketUnsettled(n: nat, init: seq<Item>, i: Item)
    requires n > 0 && i.Packet? && RingUnsettled(Run(n, Events(init)), n, History(Events(init)))
    ensures RingUnsettled(Run(n, Events(init + [i])), n, History(Events(init + [i])))
  {
    var es, h := Events(init), History(Events(init));
    var e, f := Sent(i.num, i.size, i.first), Sent(i.num, i.size, i.second);
    EventsSnoc(init, i);
    HistoryItem(init, i);
    RunSnoc(n, es, e);
    RunSnoc(n, es + [e], f);
    var x, y := Sample(i.first, i.num, i.size, Unknown), Sample(i.second, i.num, i.size, Unknown);
    SentUnsettled(Run(n, es), n, h, x);
    SentUnsettled(Run(n, es + [e]), n, h + [x], y);
  }

  /** In every doubled stream only second copies ever get a verdict in the ring. */
  lemma {:induction false} DoubledUnsettled(n: nat, items: seq<Item>)
    requires n > 0
    ensures RingUnsettled(Run(n, Events(items)), n, History(Events(items)))
  {
    RunHolds(n, Events(items));
    if items != [] {
      var init, i := items[..|items| - 1], items[|items| - 1];
      DoubledUnsettled(n, init);
      assert items == init + [i];
      if i.Packet? {
        PacketUnsettled(n, init, i);
      } else {
        EventsSnoc(init, i);
        HistoryItem(init, i);
        EventsDouble(init);
        RunSnoc(n, Events(init), EventOf(i));
        FeedbackUnsettled(Run(n, Events(init)), n, History(Events(init)), Numbers(init), EventOf(i));
      }
    }
  }
}
