/** The round-robin path selector: a counter and the list of connected paths. */
module RoundRobin {
  import opened Modular

  /** The counter is an unsigned 64-bit integer. */
  const WRAP := 0x1_0000_0000_0000_0000

  /** The connected paths, in order. */
  function Available(connected: seq<bool>): (a: seq<nat>)
    ensures forall k :: 0 <= k < |a| ==> a[k] < |connected| && connected[a[k]]
    ensures forall j, k :: 0 <= j < k < |a| ==> a[j] < a[k]
    ensures forall p :: 0 <= p < |connected| && connected[p] ==> p in a
  {
    if connected == [] then []
    else
      var n := |connected| - 1;
      var init := Available(connected[..n]);
      if connected[n] then init + [n] else init
  }

  /** One call: the new counter and the chosen path. */
  function Select(counter: nat, connected: seq<bool>): (nat, int) {
    var a := Available(connected);
    if a == [] then (counter, -1)
    else
      var c := (counter + 1) % WRAP;
      (c, a[c % |a|])
  }

  class RoundRobinSelector {
    var counter: nat

    constructor ()
      ensures counter == 0
    {
      counter := 0;
    }

    method SelectPath(connected: seq<bool>) returns (path: int)
      modifies this
      ensures (counter, path) == Select(old(counter), connected)
      ensures path == -1 <==> forall i :: 0 <= i < |connected| ==> !connected[i]
      ensures counter == if path == -1 then old(counter) else (old(counter) + 1) % 0x1_0000_0000_0000_0000
    {
      var availablePaths: seq<nat> := [];
      for i := 0 to |connected|
        invariant availablePaths == Available(connected[..i])
      {
        assert connected[..i + 1][..i] == connected[..i];
        if connected[i] {
          availablePaths := availablePaths + [i];
        }
      }
      assert connected[..|connected|] == connected;
      if |availablePaths| == 0 {
        return -1;
      }
      counter := (counter + 1) % WRAP;
      path := availablePaths[counter % |availablePaths|];
    }

    method Reset()
      modifies this
      ensures counter == 0
    {
      counter := 0;
    }
  }

  /** The chosen path is connected; -1 is returned exactly when none is. */
  lemma SelectIsConnected(counter: nat, connected: seq<bool>)
    ensures var p := Select(counter, connected).1;
      && (p == -1 <==> forall i :: 0 <= i < |connected| ==> !connected[i])
      && (p != -1 ==> 0 <= p < |connected| && connected[p])
  {
    var a := Available(connected);
    if a != [] {
      assert connected[a[0]];
    }
  }

  // ----- Fairness -----

  /** The paths chosen by `m` calls in a row while the connected set does not change. */
  function Picks(counter: nat, connected: seq<bool>, m: nat): (ps: seq<int>)
    ensures |ps| == m
    decreases m
  {
    if m == 0 then []
    else
      var (c, p) := Select(counter, connected);
      [p] + Picks(c, connected, m - 1)
  }

  function Path(a: seq<nat>, c: nat): nat
    requires a != []
  {
    a[c % |a|]
  }

  /** The same from the list of connected paths. */
  function PicksFrom(c: nat, a: seq<nat>, m: nat): (ps: seq<int>)
    requires a != []
    decreases m
  {
    if m == 0 then []
    else
      var d := (c + 1) % WRAP;
      [Path(a, d)] + PicksFrom(d, a, m - 1)
  }

  lemma {:induction false} PicksStep(c: nat, connected: seq<bool>, a: seq<nat>, m: nat)
    requires a == Available(connected) != [] && m > 0
    ensures var d := (c + 1) % WRAP; Picks(c, connected, m) == [Path(a, d)] + Picks(d, connected, m - 1)
  {}

  lemma {:induction false} PicksFromStep(c: nat, a: seq<nat>, m: nat)
    requires a != [] && m > 0
    ensures var d := (c + 1) % WRAP; PicksFrom(c, a, m) == [Path(a, d)] + PicksFrom(d, a, m - 1)
  {}

  lemma {:induction false} PicksAre(c: nat, connected: seq<bool>, a: seq<nat>, m: nat)
    requires a == Available(connected) != []
    ensures Picks(c, connected, m) == PicksFrom(c, a, m)
    decreases m
  {
    if m > 0 {
      PicksStep(c, connected, a, m);
      PicksFromStep(c, a, m);
      PicksAre((c + 1) % WRAP, connected, a, m - 1);
    }
  }

  function Count(ps: seq<int>, p: int): nat {
    if ps == [] then 0 else (if ps[0] == p then 1 else 0) + Count(ps[1..], p)
  }

  /** How many of the `m` numbers after `c` leave the remainder `r`. */
  function Hits(c: nat, m: nat, n: nat, r: nat): nat
    requires n > 0
    decreases m
  {
    if m == 0 then 0 else (if (c + 1) % n == r then 1 else 0) + Hits(c + 1, m - 1, n, r)
  }

  lemma DivSame(x: int, n: nat, r: nat)
    requires r < n && (x - r) % n + 1 < n
    ensures (x + 1 - r) / n == (x - r) / n && (x + 1) % n != r
  {
    var q, s := (x - r) / n, (x - r) % n;
    Unique(x + 1 - r, n, q, s + 1);
    if r + s + 1 < n {
      Unique(x + 1, n, q, r + s + 1);
    } else {
      assert n * (q + 1) == n * q + n;
      Unique(x + 1, n, q + 1, r + s + 1 - n);
    }
  }

  lemma DivNext(x: int, n: nat, r: nat)
    requires r < n && (x - r) % n + 1 == n
    ensures (x + 1 - r) / n == (x - r) / n + 1 && (x + 1) % n == r
  {
    var q := (x - r) / n;
    assert n * (q + 1) == n * q + n;
    Unique(x + 1 - r, n, q + 1, 0);
    Unique(x + 1, n, q + 1, r);
  }

  lemma DivStep(x: int, n: nat, r: nat)
    requires r < n
    ensures (x + 1 - r) / n - (x - r) / n == if (x + 1) % n == r then 1 else 0
  {
    if (x - r) % n + 1 < n {
      DivSame(x, n, r);
    } else {
      DivNext(x, n, r);
    }
  }

  lemma {:induction false} HitsClosed(c: nat, m: nat, n: nat, r: nat)
    requires r < n
    ensures Hits(c, m, n, r) == (c + m - r) / n - (c - r) / n
    decreases m
  {
    if m > 0 {
      HitsClosed(c + 1, m - 1, n, r);
      assert c + 1 + (m - 1) - r == c + m - r;
      DivStep(c, n, r);
    }
  }

  lemma {:induction false} HitsShare(c: nat, m: nat, n: nat, r: nat)
    requires r < n
    ensures m - n < n * Hits(c, m, n, r) < m + n
  {
    HitsClosed(c, m, n, r);
    Share(c - r, m, n);
  }

  /** Any two remainders are hit equally often, give or take one. */
  lemma {:induction false} HitsFair(c: nat, m: nat, n: nat, r: nat, s: nat)
    requires r < n && s < n
    ensures Hits(c, m, n, r) <= Hits(c, m, n, s) + 1
  {
    HitsShare(c, m, n, r);
    HitsShare(c, m, n, s);
    EqualShares(m, n, Hits(c, m, n, r), Hits(c, m, n, s));
  }

  lemma EqualShares(m: nat, n: nat, a: int, b: int)
    requires m - n < n * a < m + n && m - n < n * b < m + n
    ensures a <= b + 1
  {
    assert n * (a - b - 2) == n * a - n * b - 2 * n;
    Multiples(n, a - b - 2);
  }

  /** `m` consecutive numbers hold each remainder `m / n` times, give or take less than one. */
  lemma Share(x: int, m: nat, n: nat)
    requires n > 0
    ensures m - n < n * ((x + m) / n - x / n) < m + n
  {
    assert n * ((x + m) / n - x / n) == n * ((x + m) / n) - n * (x / n);
  }

  /** Where wrapping at 2^64 does not disturb the remainders: not reached, or a multiple of the number of paths. */
  predicate Steady(counter: nat, n: nat, m: nat)
    requires n > 0
  {
    counter + m < WRAP || WRAP % n == 0
  }

  lemma {:induction false} RemaindersAgree(c: nat, x: nat, n: nat, m: nat)
    requires n > 0 && c % n == x % n && c < WRAP && Steady(c, n, m) && m > 0
    ensures ((c + 1) % WRAP) % n == (x + 1) % n && (c + 1) % WRAP < WRAP && Steady((c + 1) % WRAP, n, m - 1)
  {
    NextRemainder(c, n);
    NextRemainder(x, n);
    if c + 1 == WRAP {
      assert (c + 1) % WRAP == 0;
    } else {
      assert (c + 1) % WRAP == c + 1;
    }
  }

  ghost predicate Increasing(a: seq<nat>) {
    forall j, k :: 0 <= j < k < |a| ==> a[j] < a[k]
  }

  lemma {:induction false} PicksAreHits(c: nat, x: nat, a: seq<nat>, m: nat, k: nat)
    requires Increasing(a) && k < |a| && c % |a| == x % |a| && c < WRAP && Steady(c, |a|, m)
    ensures Count(PicksFrom(c, a, m), a[k]) == Hits(x, m, |a|, k)
    decreases m
  {
    if m > 0 {
      var d := (c + 1) % WRAP;
      RemaindersAgree(c, x, |a|, m);
      PicksAreHits(d, x + 1, a, m - 1, k);
      var j := (x + 1) % |a|;
      assert Path(a, d) == a[j];
      CountCons(a[j], PicksFrom(d, a, m - 1), a[k]);
    }
  }

  lemma CountCons(x: int, ps: seq<int>, p: int)
    ensures Count([x] + ps, p) == (if x == p then 1 else 0) + Count(ps, p)
  {
    assert ([x] + ps)[1..] == ps;
  }

  /** Round-robin fairness: over any number of calls in a row with the same connected paths, from any counter,
      two connected paths are chosen equally often, give or take one. */
  lemma {:induction false} SelectIsFair(counter: nat, connected: seq<bool>, m: nat, p: nat, q: nat)
    requires counter < WRAP
    requires p < |connected| && q < |connected| && connected[p] && connected[q]
    requires Steady(counter, |Available(connected)|, m)
    ensures var ps := Picks(counter, connected, m); Count(ps, p) <= Count(ps, q) + 1
  {
    var a := Available(connected);
    var j: nat :| j < |a| && a[j] == p;
    var k: nat :| k < |a| && a[k] == q;
    PicksAre(counter, connected, a, m);
    PicksAreHits(counter, counter, a, m, j);
    PicksAreHits(counter, counter, a, m, k);
    HitsFair(counter, m, |a|, j, k);
  }

  // ----- Across the wrap-around -----

  lemma {:induction false} PicksSplit(c: nat, a: seq<nat>, m: nat, k: nat)
    requires c + m < WRAP && a != []
    ensures PicksFrom(c, a, m + k) == PicksFrom(c, a, m) + PicksFrom(c + m, a, k)
    decreases m
  {
    if m == 0 {
      assert [] + PicksFrom(c, a, k) == PicksFrom(c, a, k);
    } else {
      assert (c + 1) % WRAP == c + 1;
      PicksSplit(c + 1, a, m - 1, k);
      assert c + 1 + (m - 1) == c + m && m + k - 1 == m - 1 + k;
      var x, u, v := [Path(a, c + 1)], PicksFrom(c + 1, a, m - 1), PicksFrom(c + m, a, k);
      assert x + (u + v) == (x + u) + v;
    }
  }

  lemma {:induction false} CountSum(a: seq<int>, b: seq<int>, p: int)
    ensures Count(a + b, p) == Count(a, p) + Count(b, p)
  {
    if a == [] {
      assert a + b == b;
    } else {
      CountSum(a[1..], b, p);
      assert (a + b)[1..] == a[1..] + b;
    }
  }

  lemma QuotientsBelow(w: nat, n: nat, r: nat)
    requires 0 < r < n <= w && w % n == r
    ensures var q := w / n;
      (w - 1) / n == q && (w - r - 1) / n == q - 1 && (w - r - 1 - r) / n == q - 1
  {
    var q := w / n;
    assert n * (q - 1) == n * q - n;
    Unique(w - 1, n, q, r - 1);
    Unique(w - r - 1, n, q - 1, n - 1);
    Unique(w - r - 1 - r, n, q - 1, n - 1 - r);
  }

  /** The `r` numbers below a number that leaves the remainder `r` leave 0, ..., r - 1. */
  lemma {:induction false} HitsBelow(w: nat, n: nat, r: nat)
    requires 0 < r < n <= w && w % n == r
    ensures Hits(w - r - 1, r, n, 0) == 1 && Hits(w - r - 1, r, n, r) == 0
  {
    QuotientsBelow(w, n, r);
    HitsClosed(w - r - 1, r, n, 0);
    HitsClosed(w - r - 1, r, n, r);
    assert w - r - 1 + r - 0 == w - 1 && w - r - 1 + r - r == w - r - 1;
  }

  lemma {:induction false} HitsAbove(n: nat, r: nat)
    requires 0 < r < n
    ensures Hits(0, r - 1, n, 0) == 0 && Hits(0, r - 1, n, r) == 0
  {
    HitsClosed(0, r - 1, n, 0);
    HitsClosed(0, r - 1, n, r);
    Unique(r - 1, n, 0, r - 1);
    Unique(0, n, 0, 0);
    assert n * -1 + n == 0;
    Unique(-1, n, -1, n - 1);
    var x: int := 0 - r;
    Unique(x, n, -1, n - r);
  }

  lemma {:induction false} PicksAfterWrap(a: seq<nat>, m: nat)
    requires a != [] && m > 0
    ensures PicksFrom(WRAP - 1, a, m) == [a[0]] + PicksFrom(0, a, m - 1)
  {
    assert (WRAP - 1 + 1) % WRAP == 0;
    Unique(0, |a|, 0, 0);
    assert Path(a, 0) == a[0];
  }

  lemma {:induction false} CountAcrossWrap(a: seq<nat>, r: nat, k: nat)
    requires Increasing(a) && 0 < r < WRAP && r <= |a| && k < |a|
    ensures Count(PicksFrom(WRAP - r - 1, a, 2 * r), a[k]) ==
            Hits(WRAP - r - 1, r, |a|, k) + (if k == 0 then 1 else 0) + Hits(0, r - 1, |a|, k)
  {
    var c := WRAP - r - 1;
    assert 2 * r == r + r && c + r == WRAP - 1;
    PicksSplit(c, a, r, r);
    PicksAfterWrap(a, r);
    var before, after := PicksFrom(c, a, r), PicksFrom(0, a, r - 1);
    CountSum(before, [a[0]] + after, a[k]);
    CountCons(a[0], after, a[k]);
    PicksAreHits(c, c, a, r, k);
    PicksAreHits(0, 0, a, r - 1, k);
  }

  /** If 2^64 leaves the remainder `r`, the 2r calls around the wrap-around choose the first path twice and
      the path at position `r` never. */
  lemma {:induction false} WrapIsUnfair(a: seq<nat>, r: nat)
    requires Increasing(a) && 0 < r < |a| <= WRAP && WRAP % |a| == r
    ensures var ps := PicksFrom(WRAP - r - 1, a, 2 * r); Count(ps, a[0]) == 2 && Count(ps, a[r]) == 0
  {
    CountAcrossWrap(a, r, 0);
    CountAcrossWrap(a, r, r);
    HitsBelow(WRAP, |a|, r);
    HitsAbove(|a|, r);
  }

  ghost predicate Fair(ps: seq<int>, connected: seq<bool>) {
    forall p, q :: 0 <= p < |connected| && 0 <= q < |connected| && connected[p] && connected[q] ==>
      Count(ps, p) <= Count(ps, q) + 1
  }

  lemma {:induction false} SteadyIsFair(c: nat, connected: seq<bool>, m: nat)
    requires c < WRAP && Available(connected) != [] && Steady(c, |Available(connected)|, m)
    ensures Fair(Picks(c, connected, m), connected)
  {
    var ps := Picks(c, connected, m);
    forall p, q | 0 <= p < |connected| && 0 <= q < |connected| && connected[p] && connected[q]
      ensures Count(ps, p) <= Count(ps, q) + 1
    {
      SelectIsFair(c, connected, m, p, q);
    }
  }

  lemma NotFair(ps: seq<int>, connected: seq<bool>, p: nat, q: nat)
    requires p < |connected| && q < |connected| && connected[p] && connected[q]
    requires Count(ps, p) > Count(ps, q) + 1
    ensures !Fair(ps, connected)
  {}

  lemma {:induction false} UnfairRun(c: nat, connected: seq<bool>, m: nat, p: nat, q: nat)
    requires Available(connected) != []
    requires p < |connected| && q < |connected| && connected[p] && connected[q]
    requires var ps := PicksFrom(c, Available(connected), m); Count(ps, p) > Count(ps, q) + 1
    ensures !Fair(Picks(c, connected, m), connected)
  {
    PicksAre(c, connected, Available(connected), m);
    NotFair(Picks(c, connected, m), connected, p, q);
  }

  /** Every run of calls, wherever the counter starts, is fair exactly when the number of connected paths
      divides 2^64. */
  lemma {:induction false} FairForeverIff(connected: seq<bool>)
    requires 0 < |Available(connected)| <= 0x1_0000_0000_0000_0000
    ensures (forall c: nat, m: nat :: c < 0x1_0000_0000_0000_0000 ==> Fair(Picks(c, connected, m), connected)) <==>
            0x1_0000_0000_0000_0000 % |Available(connected)| == 0
  {
    if WRAP % |Available(connected)| == 0 {
      forall c: nat, m: nat | c < WRAP
        ensures Fair(Picks(c, connected, m), connected)
      {
        SteadyIsFair(c, connected, m);
      }
    } else {
      var a := Available(connected);
      var r := WRAP % |a|;
      WrapIsUnfair(a, r);
      UnfairRun(WRAP - r - 1, connected, 2 * r, a[0], a[r]);
    }
  }
}
