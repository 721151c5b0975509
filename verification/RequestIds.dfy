/** The request-ID generator of a session: IDs step by a fixed interval and stay below the credit
    the peer has granted. */
module RequestIds {

  datatype Generator = Generator(id: nat, max: nat, interval: nat)

  /** What one call of `next` answers. */
  datatype Issue = Issued(id: nat) | Blocked(max: nat)

  function Next(g: Generator): (r: (Generator, Issue)) {
    if g.id >= g.max then (g, Blocked(g.max)) else (g.(id := g.id + g.interval), Issued(g.id))
  }

  /** `accepted` is false when the new limit is below the old one. */
  function SetMax(g: Generator, v: nat): (r: (Generator, bool)) {
    if v < g.max then (g, false) else (g.(max := v), true)
  }

  class RequestIdGenerator {
    var id: nat
    var max: nat
    const interval: nat

    ghost function View(): Generator
      reads this
    {
      Generator(id, max, interval)
    }

    constructor (initialId: nat, maxId: nat, interval: nat)
      ensures View() == Generator(initialId, maxId, interval)
    {
      this.id, this.max, this.interval := initialId, maxId, interval;
    }

    method NextId() returns (r: Issue)
      modifies this
      ensures (View(), r) == Next(old(View()))
    {
      if id >= max {
        return Blocked(max);
      }
      var next := id;
      id := id + interval;
      return Issued(next);
    }

    method RaiseMax(v: nat) returns (accepted: bool)
      modifies this
      ensures (View(), accepted) == SetMax(old(View()), v)
    {
      if v < max {
        return false;
      }
      max := v;
      return true;
    }
  }

  /** One call on the generator. */
  datatype Call = CallNext | CallSetMax(v: nat)

  function Calling(g: Generator, c: Call): Generator {
    match c
    case CallNext => Next(g).0
    case CallSetMax(v) => SetMax(g, v).0
  }

  function After(g: Generator, calls: seq<Call>): Generator
    decreases |calls|
  {
    if calls == [] then g else After(Calling(g, calls[0]), calls[1..])
  }

  /** The IDs handed out over a run of calls, in order. */
  function IssuedBy(g: Generator, calls: seq<Call>): seq<nat>
    decreases |calls|
  {
    if calls == [] then []
    else
      (if calls[0].CallNext? && g.id < g.max then [g.id] else []) +
      IssuedBy(Calling(g, calls[0]), calls[1..])
  }

  /** Over any run of calls, refused ones included, the IDs handed out are consecutive multiples of
      the interval above the first, so with a positive interval none repeats, and each is below the
      limit in force at the end. */
  lemma {:induction false} IssuedAreConsecutive(g: Generator, calls: seq<Call>, i: nat)
    requires i < |IssuedBy(g, calls)|
    ensures IssuedBy(g, calls)[i] == g.id + i * g.interval
    ensures IssuedBy(g, calls)[i] < After(g, calls).max
    decreases |calls|
  {
    var g', rest := Calling(g, calls[0]), calls[1..];
    MaxGrows(g', rest);
    if calls[0].CallNext? && g.id < g.max {
      if i > 0 {
        IssuedAreConsecutive(g', rest, i - 1);
      }
    } else {
      IssuedAreConsecutive(g', rest, i);
    }
  }

  lemma {:induction false} MaxGrows(g: Generator, calls: seq<Call>)
    ensures g.max <= After(g, calls).max
    decreases |calls|
  {
    if calls != [] {
      MaxGrows(Calling(g, calls[0]), calls[1..]);
    }
  }
}
