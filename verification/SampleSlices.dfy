/** The time-stamped sample slices: appended to on every event, pruned from the front on every event.  With a
    clock that does not go back, pruning step by step comes to one filter over the whole history. */
module SampleSlices {

  datatype Stamp = Stamp(time: int, value: int)

  /** Drops the leading samples before `cut`, and stops at the first that is not. */
  function Prune(s: seq<Stamp>, cut: int): seq<Stamp> {
    if s != [] && s[0].time < cut then Prune(s[1..], cut) else s
  }

  function Last(s: seq<Stamp>, n: nat): seq<Stamp> {
    if |s| <= n then s else s[|s| - n..]
  }

  /** All samples from `cut` on, wherever they are. */
  function Filter(s: seq<Stamp>, cut: int): seq<Stamp> {
    if s == [] then []
    else
      var x := s[|s| - 1];
      Filter(s[..|s| - 1], cut) + if x.time < cut then [] else [x]
  }

  function Sum(s: seq<Stamp>): int {
    if s == [] then 0 else Sum(s[..|s| - 1]) + s[|s| - 1].value
  }

  // ----- Events -----

  datatype Channel = SentPkts | RcvdPkts | AckedPkts | LostPkts | SentBytes | RcvdBytes

  datatype What = Sends(size: int) | Receives(size: int) | Acks | Loses | Ticks

  /** The sample is stamped `at`, the slices are pruned `now`. */
  datatype Timed = Timed(what: What, at: int, now: int)

  function Added(c: Channel, e: Timed): seq<Stamp> {
    match (c, e.what)
    case (SentPkts, Sends(_)) => [Stamp(e.at, 1)]
    case (SentBytes, Sends(size)) => [Stamp(e.at, size)]
    case (RcvdPkts, Receives(_)) => [Stamp(e.at, 1)]
    case (RcvdBytes, Receives(size)) => [Stamp(e.at, size)]
    case (AckedPkts, Acks) => [Stamp(e.at, 1)]
    case (LostPkts, Loses) => [Stamp(e.at, 1)]
    case _ => []
  }

  datatype Cap = Uncapped | Capped(limit: nat)

  function Trim(s: seq<Stamp>, cap: Cap): seq<Stamp> {
    if cap.Capped? then Last(s, cap.limit) else s
  }

  /** One event: samples appended, old ones pruned, the slice capped. */
  function StepSlice(s: seq<Stamp>, c: Channel, cap: Cap, window: int, e: Timed): seq<Stamp> {
    Trim(Prune(s + Added(c, e), e.now - window), cap)
  }

  /** What a channel holds after `events`. */
  function Slice(c: Channel, cap: Cap, window: int, events: seq<Timed>): seq<Stamp> {
    if events == [] then []
    else StepSlice(Slice(c, cap, window, events[..|events| - 1]), c, cap, window, events[|events| - 1])
  }

  /** Everything a channel was ever given. */
  function All(c: Channel, events: seq<Timed>): seq<Stamp> {
    if events == [] then [] else All(c, events[..|events| - 1]) + Added(c, events[|events| - 1])
  }

  // ----- What a channel adds up to -----

  function SentCount(events: seq<Timed>): nat {
    if events == [] then 0
    else
      var w := events[|events| - 1].what;
      SentCount(events[..|events| - 1]) + if w.Sends? then 1 else 0
  }

  function SentSize(events: seq<Timed>): int {
    if events == [] then 0
    else
      var w := events[|events| - 1].what;
      SentSize(events[..|events| - 1]) + if w.Sends? then w.size else 0
  }

  function ReceivedCount(events: seq<Timed>): nat {
    if events == [] then 0
    else
      var w := events[|events| - 1].what;
      ReceivedCount(events[..|events| - 1]) + if w.Receives? then 1 else 0
  }

  function ReceivedSize(events: seq<Timed>): int {
    if events == [] then 0
    else
      var w := events[|events| - 1].what;
      ReceivedSize(events[..|events| - 1]) + if w.Receives? then w.size else 0
  }

  function AckedCount(events: seq<Timed>): nat {
    if events == [] then 0
    else
      var w := events[|events| - 1].what;
      AckedCount(events[..|events| - 1]) + if w.Acks? then 1 else 0
  }

  function LostCount(events: seq<Timed>): nat {
    if events == [] then 0
    else
      var w := events[|events| - 1].what;
      LostCount(events[..|events| - 1]) + if w.Loses? then 1 else 0
  }

  function Worth(more: seq<Stamp>): int {
    if more == [] then 0 else more[0].value
  }

  lemma SumAdds(s: seq<Stamp>, more: seq<Stamp>)
    requires |more| <= 1
    ensures Sum(s + more) == Sum(s) + Worth(more)
  {
    if more == [] {
      assert s + more == s;
    } else {
      assert (s + more)[..|s|] == s;
    }
  }

  lemma {:induction false} AllAdds(c: Channel, events: seq<Timed>)
    requires events != []
    ensures Sum(All(c, events)) == Sum(All(c, events[..|events| - 1])) + Worth(Added(c, events[|events| - 1]))
  {
    SumAdds(All(c, events[..|events| - 1]), Added(c, events[|events| - 1]));
  }

  /** The channels count the packets sent, received, acknowledged and lost, and the bytes sent and received. */
  lemma {:induction false} SentTotals(events: seq<Timed>)
    ensures Sum(All(SentPkts, events)) == SentCount(events) && Sum(All(SentBytes, events)) == SentSize(events)
  {
    if events != [] {
      SentTotals(events[..|events| - 1]);
      AllAdds(SentPkts, events);
      AllAdds(SentBytes, events);
    }
  }

  lemma {:induction false} ReceivedTotals(events: seq<Timed>)
    ensures Sum(All(RcvdPkts, events)) == ReceivedCount(events) && Sum(All(RcvdBytes, events)) == ReceivedSize(events)
  {
    if events != [] {
      ReceivedTotals(events[..|events| - 1]);
      AllAdds(RcvdPkts, events);
      AllAdds(RcvdBytes, events);
    }
  }

  lemma {:induction false} FeedbackTotals(events: seq<Timed>)
    ensures Sum(All(AckedPkts, events)) == AckedCount(events) && Sum(All(LostPkts, events)) == LostCount(events)
  {
    if events != [] {
      FeedbackTotals(events[..|events| - 1]);
      AllAdds(AckedPkts, events);
      AllAdds(LostPkts, events);
    }
  }

  /** The filter keeps exactly the samples from the cut on, in order. */
  lemma {:induction false} FilterKeeps(s: seq<Stamp>, cut: int, x: Stamp)
    ensures x in Filter(s, cut) <==> x in s && x.time >= cut
  {
    if s != [] {
      FilterKeeps(s[..|s| - 1], cut, x);
      assert s == s[..|s| - 1] + [s[|s| - 1]];
    }
  }

  /** The clock does not go back. */
  predicate Clocked(events: seq<Timed>) {
    && (forall i :: 0 <= i < |events| ==> events[i].at <= events[i].now)
    && (forall i, j :: 0 <= i < j < |events| ==> events[i].now <= events[j].at)
  }

  // ----- Cuts in sorted sequences -----

  predicate Sorted(s: seq<Stamp>) {
    forall i, j :: 0 <= i < j < |s| ==> s[i].time <= s[j].time
  }

  ghost predicate CutsAt(s: seq<Stamp>, cut: int, a: nat) {
    && a <= |s|
    && (forall i :: 0 <= i < a ==> s[i].time < cut)
    && (forall i :: a <= i < |s| ==> cut <= s[i].time)
  }

  lemma {:induction false} CutExists(s: seq<Stamp>, cut: int) returns (a: nat)
    requires Sorted(s)
    ensures CutsAt(s, cut, a)
  {
    if s == [] || cut <= s[0].time {
      a := 0;
    } else {
      var b := CutExists(s[1..], cut);
      a := b + 1;
    }
  }

  lemma DropLast(s: seq<Stamp>, a: nat)
    requires a < |s|
    ensures s[a..] == s[..|s| - 1][a..] + [s[|s| - 1]]
  {}

  lemma {:induction false} FilterAt(s: seq<Stamp>, cut: int, a: nat)
    requires CutsAt(s, cut, a)
    ensures Filter(s, cut) == s[a..]
  {
    if a == |s| {
      NothingSince(s, cut);
    } else {
      var init, x := s[..|s| - 1], s[|s| - 1];
      FilterAt(init, cut, a);
      DropLast(s, a);
    }
  }

  lemma {:induction false} NothingSince(s: seq<Stamp>, cut: int)
    requires forall i :: 0 <= i < |s| ==> s[i].time < cut
    ensures Filter(s, cut) == []
  {
    if s != [] {
      NothingSince(s[..|s| - 1], cut);
    }
  }

  /** Pruning a suffix of a sorted sequence. */
  lemma {:induction false} PruneAt(s: seq<Stamp>, cut: int, a: nat, from: nat)
    requires CutsAt(s, cut, a) && from <= |s|
    ensures Prune(s[from..], cut) == s[if from < a then a else from..]
    decreases |s| - from
  {
    if from < a {
      assert s[from..][1..] == s[from + 1..];
      PruneAt(s, cut, a, from + 1);
    }
  }

  /** How much of a history of length `length`, cut at `a`, a capped slice leaves out. */
  function Start(length: nat, a: nat, cap: Cap): nat {
    if cap.Capped? && a + cap.limit < length then length - cap.limit else a
  }

  lemma {:induction false} AllSorted(c: Channel, events: seq<Timed>)
    requires Clocked(events)
    ensures Sorted(All(c, events))
    ensures events != [] ==>
      forall i :: 0 <= i < |All(c, events)| ==> All(c, events)[i].time <= events[|events| - 1].now
  {
    if events != [] {
      var init := events[..|events| - 1];
      AllSorted(c, init);
      var e := events[|events| - 1];
      if init != [] {
        assert init[|init| - 1] == events[|events| - 2];
      }
    }
  }

  /** One step, on a history that was cut at `a` and is now to be cut at `b`. */
  lemma StepAt(all: seq<Stamp>, more: seq<Stamp>, cut: int, a: nat, b: nat, cap: Cap)
    requires a <= b && a <= |all| && CutsAt(all + more, cut, b)
    ensures Trim(Prune(all[Start(|all|, a, cap)..] + more, cut), cap) == (all + more)[Start(|all + more|, b, cap)..]
  {
    var s, from := all + more, Start(|all|, a, cap);
    assert all[from..] + more == s[from..];
    PruneAt(s, cut, b, from);
    TrimAt(s, if from < b then b else from, cap);
  }

  /** `slice` is what a cut of a history at `cut` leaves, capped. */
  ghost predicate IsCutOf(slice: seq<Stamp>, all: seq<Stamp>, cut: int, cap: Cap) {
    exists a: nat :: CutsAt(all, cut, a) && slice == all[Start(|all|, a, cap)..]
  }

  lemma CutStep(slice: seq<Stamp>, all: seq<Stamp>, early: int, more: seq<Stamp>, late: int, cap: Cap)
    requires IsCutOf(slice, all, early, cap) && Sorted(all + more) && early <= late
    ensures IsCutOf(Trim(Prune(slice + more, late), cap), all + more, late, cap)
  {
    var a: nat :| CutsAt(all, early, a) && slice == all[Start(|all|, a, cap)..];
    var b := CutExists(all + more, late);
    CutsGrow(all, more, early, late, a, b);
    StepAt(all, more, late, a, b, cap);
  }

  lemma NothingCut(cut: int, cap: Cap)
    ensures IsCutOf([], [], cut, cap)
  {
    assert CutsAt([], cut, 0);
  }

  /** The cut of the last prune. */
  function LastCut(window: int, events: seq<Timed>): int
    requires events != []
  {
    events[|events| - 1].now - window
  }

  /** One event, on the slice and on the full history of a channel. */
  lemma {:induction false} SliceStep(c: Channel, cap: Cap, window: int, events: seq<Timed>)
    requires events != []
    ensures var init, more := events[..|events| - 1], Added(c, events[|events| - 1]);
      && Slice(c, cap, window, events) ==
         Trim(Prune(Slice(c, cap, window, init) + more, LastCut(window, events)), cap)
      && All(c, events) == All(c, init) + more
  {}

  /** What one event leaves is a cut of the longer history. */
  lemma {:induction false} NextCut(c: Channel, cap: Cap, window: int, events: seq<Timed>, early: int)
    requires events != [] && Sorted(All(c, events)) && early <= LastCut(window, events)
    requires var init := events[..|events| - 1]; IsCutOf(Slice(c, cap, window, init), All(c, init), early, cap)
    ensures IsCutOf(Slice(c, cap, window, events), All(c, events), LastCut(window, events), cap)
  {
    var init, more := events[..|events| - 1], Added(c, events[|events| - 1]);
    SliceStep(c, cap, window, events);
    CutStep(Slice(c, cap, window, init), All(c, init), early, more, LastCut(window, events), cap);
  }

  lemma CutsAdvance(window: int, events: seq<Timed>)
    requires Clocked(events) && |events| >= 2
    ensures var init := events[..|events| - 1];
      Clocked(init) && LastCut(window, init) <= LastCut(window, events)
  {
    assert events[|events| - 2].now <= events[|events| - 1].at;
  }

  lemma {:induction false} FirstIsCut(c: Channel, cap: Cap, window: int, events: seq<Timed>)
    requires |events| == 1 && Sorted(All(c, events))
    ensures IsCutOf(Slice(c, cap, window, events), All(c, events), LastCut(window, events), cap)
  {
    assert events[..0] == [];
    NothingCut(LastCut(window, events), cap);
    NextCut(c, cap, window, events, LastCut(window, events));
  }

  lemma {:induction false} SliceIsCut(c: Channel, cap: Cap, window: int, events: seq<Timed>)
    requires Clocked(events) && events != []
    ensures IsCutOf(Slice(c, cap, window, events), All(c, events), LastCut(window, events), cap)
  {
    AllSorted(c, events);
    if |events| == 1 {
      FirstIsCut(c, cap, window, events);
    } else {
      var init := events[..|events| - 1];
      CutsAdvance(window, events);
      SliceIsCut(c, cap, window, init);
      NextCut(c, cap, window, events, LastCut(window, init));
    }
  }

  lemma CutsGrow(all: seq<Stamp>, more: seq<Stamp>, early: int, late: int, a: nat, b: nat)
    requires early <= late && CutsAt(all, early, a) && CutsAt(all + more, late, b)
    ensures a <= b
  {
    if b < |all| {
      assert (all + more)[b] == all[b];
    }
  }

  lemma TrimAt(all: seq<Stamp>, a: nat, cap: Cap)
    requires a <= |all|
    ensures Trim(all[a..], cap) == all[Start(|all|, a, cap)..]
  {
    if cap.Capped? && |all[a..]| > cap.limit {
      assert all[a..][|all| - a - cap.limit..] == all[|all| - cap.limit..];
    }
  }

  /** The slice of a channel, after any events under a clock that does not go back, is the full history of the
      channel filtered by the cut of the last prune, capped to its last samples where a cap applies. */
  lemma {:induction false} SliceIsFilteredHistory(c: Channel, cap: Cap, window: int, events: seq<Timed>)
    requires Clocked(events) && events != []
    ensures Slice(c, cap, window, events) == Trim(Filter(All(c, events), LastCut(window, events)), cap)
  {
    SliceIsCut(c, cap, window, events);
    CutIsFilter(Slice(c, cap, window, events), All(c, events), LastCut(window, events), cap);
  }

  lemma CutIsFilter(slice: seq<Stamp>, all: seq<Stamp>, cut: int, cap: Cap)
    requires IsCutOf(slice, all, cut, cap)
    ensures slice == Trim(Filter(all, cut), cap)
  {
    var a: nat :| CutsAt(all, cut, a) && slice == all[Start(|all|, a, cap)..];
    CutAndTrim(all, cut, a, cap);
  }

  lemma CutAndTrim(all: seq<Stamp>, cut: int, a: nat, cap: Cap)
    requires CutsAt(all, cut, a)
    ensures Trim(Filter(all, cut), cap) == all[Start(|all|, a, cap)..]
  {
    FilterAt(all, cut, a);
    TrimAt(all, a, cap);
  }

  // ----- The six slices together -----

  datatype Samples = Samples(
    sentPkts: seq<Stamp>, rcvdPkts: seq<Stamp>, ackedPkts: seq<Stamp>, lostPkts: seq<Stamp>,
    sentBytes: seq<Stamp>, rcvdBytes: seq<Stamp>)

  function On(q: Samples, c: Channel): seq<Stamp> {
    match c
    case SentPkts => q.sentPkts
    case RcvdPkts => q.rcvdPkts
    case AckedPkts => q.ackedPkts
    case LostPkts => q.lostPkts
    case SentBytes => q.sentBytes
    case RcvdBytes => q.rcvdBytes
  }

  /** Only the received bytes are ever capped. */
  function CapOn(c: Channel, cap: Cap): Cap {
    if c.RcvdBytes? then cap else Uncapped
  }

  /** `now` is `was` with the samples of `e` appended where they belong. */
  ghost predicate Appended(now: Samples, was: Samples, e: Timed) {
    forall c :: On(now, c) == On(was, c) + Added(c, e)
  }

  lemma SentAppended(was: Samples, e: Timed)
    requires e.what.Sends?
    ensures Appended(was.(sentPkts := was.sentPkts + [Stamp(e.at, 1)],
                          sentBytes := was.sentBytes + [Stamp(e.at, e.what.size)]), was, e)
  {}

  lemma ReceivedAppended(was: Samples, e: Timed)
    requires e.what.Receives?
    ensures Appended(was.(rcvdPkts := was.rcvdPkts + [Stamp(e.at, 1)],
                          rcvdBytes := was.rcvdBytes + [Stamp(e.at, e.what.size)]), was, e)
  {}

  lemma AckAppended(was: Samples, e: Timed)
    requires e.what.Acks?
    ensures Appended(was.(ackedPkts := was.ackedPkts + [Stamp(e.at, 1)]), was, e)
  {}

  lemma LossAppended(was: Samples, e: Timed)
    requires e.what.Loses?
    ensures Appended(was.(lostPkts := was.lostPkts + [Stamp(e.at, 1)]), was, e)
  {}

  /** `now` is `was` with every slice pruned, and the received bytes capped. */
  ghost predicate Pruned(now: Samples, was: Samples, cap: Cap, cut: int) {
    forall c :: On(now, c) == Trim(Prune(On(was, c), cut), CapOn(c, cap))
  }

  /** The six slices are those of `events`. */
  ghost predicate Traced(q: Samples, cap: Cap, window: int, events: seq<Timed>) {
    forall c :: On(q, c) == Slice(c, CapOn(c, cap), window, events)
  }

  lemma {:induction false} SliceSnoc(c: Channel, cap: Cap, window: int, events: seq<Timed>, e: Timed)
    ensures Slice(c, cap, window, events + [e]) ==
            Trim(Prune(Slice(c, cap, window, events) + Added(c, e), e.now - window), cap)
  {
    var all := events + [e];
    assert all[..|events|] == events && all[|events|] == e;
  }

  /** One call: samples appended, then everything pruned. */
  lemma TracedStep(was: Samples, mid: Samples, now: Samples, cap: Cap, window: int, events: seq<Timed>, e: Timed)
    requires Traced(was, cap, window, events) && Appended(mid, was, e) && Pruned(now, mid, cap, e.now - window)
    ensures Traced(now, cap, window, events + [e])
  {
    forall c
      ensures On(now, c) == Slice(c, CapOn(c, cap), window, events + [e])
    {
      SliceSnoc(c, CapOn(c, cap), window, events, e);
    }
  }

  /** Every slice of the logger, and so every count and sum read from it, is that of the naive history: all
      samples since the cut of the last prune. */
  lemma {:induction false} PruningRefinesHistory(q: Samples, c: Channel, cap: Cap, window: int, events: seq<Timed>)
    requires Traced(q, cap, window, events) && Clocked(events) && events != []
    ensures var naive := Trim(Filter(All(c, events), LastCut(window, events)), CapOn(c, cap));
      On(q, c) == naive && Sum(On(q, c)) == Sum(naive)
  {
    SliceIsFilteredHistory(c, CapOn(c, cap), window, events);
  }

  /** Filtering what a filter left is filtering by the later cut. */
  lemma {:induction false} FilterTwice(s: seq<Stamp>, a: int, b: int)
    ensures Filter(Filter(s, a), b) == Filter(s, if a < b then b else a)
  {
    if s != [] {
      var init, x := s[..|s| - 1], s[|s| - 1];
      FilterTwice(init, a, b);
      if x.time < a {
        assert Filter(s, a) == Filter(init, a) + [] == Filter(init, a);
      } else {
        FilterSnoc(Filter(init, a), x, b);
      }
    }
  }

  // ----- The loops -----

  method PruneStamps(s: seq<Stamp>, cut: int) returns (r: seq<Stamp>)
    ensures r == Prune(s, cut)
    ensures |r| <= |s| && r == s[|s| - |r|..] && (forall i :: 0 <= i < |s| - |r| ==> s[i].time < cut)
    ensures r != [] ==> r[0].time >= cut
  {
    var i := 0;
    while i < |s| && s[i].time < cut
      invariant i <= |s| && Prune(s, cut) == Prune(s[i..], cut) && forall k :: 0 <= k < i ==> s[k].time < cut
    {
      assert s[i..][1..] == s[i + 1..];
      i := i + 1;
    }
    r := s[i..];
  }

  method SumStamps(s: seq<Stamp>) returns (n: int)
    ensures n == Sum(s)
  {
    n := 0;
    for i := 0 to |s|
      invariant n == Sum(s[..i])
    {
      SumSnoc(s[..i], s[i]);
      assert s[..i + 1] == s[..i] + [s[i]];
      n := n + s[i].value;
    }
    assert s[..|s|] == s;
  }

  lemma SumSnoc(s: seq<Stamp>, x: Stamp)
    ensures Sum(s + [x]) == Sum(s) + x.value
  {
    assert (s + [x])[..|s|] == s;
  }

  lemma FilterSnoc(s: seq<Stamp>, x: Stamp, cut: int)
    ensures Filter(s + [x], cut) == Filter(s, cut) + if x.time < cut then [] else [x]
  {
    assert (s + [x])[..|s|] == s;
  }

  lemma SumFilterSnoc(s: seq<Stamp>, x: Stamp, cut: int)
    ensures Sum(Filter(s + [x], cut)) == Sum(Filter(s, cut)) + if x.time < cut then 0 else x.value
  {
    FilterSnoc(s, x, cut);
    if x.time < cut {
      assert Filter(s, cut) + [] == Filter(s, cut);
    } else {
      SumSnoc(Filter(s, cut), x);
    }
  }

  /** Samples since `cut`, in whatever order they are. */
  method SumSince(s: seq<Stamp>, cut: int) returns (n: int)
    ensures n == Sum(Filter(s, cut))
  {
    n := 0;
    for i := 0 to |s|
      invariant n == Sum(Filter(s[..i], cut))
    {
      SumFilterSnoc(s[..i], s[i], cut);
      assert s[..i + 1] == s[..i] + [s[i]];
      if s[i].time > cut || s[i].time == cut {
        n := n + s[i].value;
      }
    }
    assert s[..|s|] == s;
  }

  predicate Ones(s: seq<Stamp>) {
    forall i :: 0 <= i < |s| ==> s[i].value == 1
  }

  lemma {:induction false} PruneKeeps(s: seq<Stamp>, cut: int)
    ensures |Prune(s, cut)| <= |s| && Prune(s, cut) == s[|s| - |Prune(s, cut)|..]
  {
    if s != [] && s[0].time < cut {
      PruneKeeps(s[1..], cut);
    }
  }

  lemma {:induction false} SumOfOnes(s: seq<Stamp>)
    requires Ones(s)
    ensures Sum(s) == |s|
  {
    if s != [] {
      SumOfOnes(s[..|s| - 1]);
    }
  }
}
