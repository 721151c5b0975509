/** The buffer between the stream readers of a remote track and its application.  Readers push and never wait,
    the application takes; a run is any interleaving of the two. */
module ObjectBuffer {
  import opened SessionTypes
  import opened Varint
  import opened ObjectStream
  import opened ObjectParser

  /** The parts of an object the application sees. */
  datatype Delivered = Delivered(group: VarInt, subgroup: VarInt, id: VarInt, payload: Bytes)

  const CAPACITY := 100

  datatype Cause = Cause(status: nat, reason: string)

  /** Which ready case the select of ReadObject takes. */
  datatype Pick = PickContext | PickDone | PickBuffer

  datatype Reading =
    | Blocked                                  // no case was ready
    | Cancelled                                // the caller's context ended
    | Ended(cause: Cause)
    | Got(item: Delivered, afterDone: bool)    // an object, with an error if the track is done

  /** The buffer and the closing cause, with the whole history: everything pushed and everything read. */
  datatype Track = Track(buffer: seq<Delivered>, done: Option<Cause>, pushed: seq<Delivered>, read: seq<Delivered>)

  const EMPTY := Track([], None, [], [])

  function Push(t: Track, o: Delivered): Track {
    if |t.buffer| < CAPACITY then t.(buffer := t.buffer + [o], pushed := t.pushed + [o])
    else t.(pushed := t.pushed + [o])
  }

  /** The first cause stays. */
  function Finish(t: Track, c: Cause): Track {
    if t.done.None? then t.(done := Some(c)) else t
  }

  function Read(t: Track, contextDone: bool, pick: Pick): (Track, Reading) {
    if pick.PickContext? && contextDone then (t, Cancelled)
    else if pick.PickDone? && t.done.Some? then (t, Ended(t.done.value))
    else if pick.PickBuffer? && t.buffer != [] then
      (t.(buffer := t.buffer[1..], read := t.read + [t.buffer[0]]), Got(t.buffer[0], t.done.Some?))
    else (t, Blocked)
  }

  datatype Event =
    | Pushes(item: Delivered)
    | Reads(contextDone: bool, pick: Pick)
    | Finishes(cause: Cause)

  function Apply(t: Track, e: Event): Track {
    match e
    case Pushes(o) => Push(t, o)
    case Reads(contextDone, pick) => Read(t, contextDone, pick).0
    case Finishes(c) => Finish(t, c)
  }

  function Run(events: seq<Event>): Track {
    if events == [] then EMPTY else Apply(Run(events[..|events| - 1]), events[|events| - 1])
  }

  // ----- Conservation -----

  function Dropped(t: Track): int {
    |t.pushed| - |t.read| - |t.buffer|
  }

  /** `kept` picks elements of `all` in order. */
  ghost predicate Picks(kept: seq<Delivered>, all: seq<Delivered>, at: seq<nat>) {
    && |at| == |kept|
    && (forall i :: 0 <= i < |at| ==> at[i] < |all| && all[at[i]] == kept[i])
    && (forall i, j :: 0 <= i < j < |at| ==> at[i] < at[j])
  }

  ghost predicate Conserved(t: Track) {
    |t.buffer| <= CAPACITY && Dropped(t) >= 0 && exists at: seq<nat> :: Picks(t.read + t.buffer, t.pushed, at)
  }

  lemma PushConserves(t: Track, o: Delivered)
    requires Conserved(t)
    ensures Conserved(Push(t, o))
  {
    var u := Push(t, o);
    var at: seq<nat> :| Picks(t.read + t.buffer, t.pushed, at);
    if |t.buffer| < CAPACITY {
      assert u.read + u.buffer == t.read + t.buffer + [o];
      PicksBoth(t.read + t.buffer, t.pushed, at, o);
    } else {
      PicksMore(t.read + t.buffer, t.pushed, at, o);
    }
  }

  lemma PicksBoth(kept: seq<Delivered>, all: seq<Delivered>, at: seq<nat>, o: Delivered)
    requires Picks(kept, all, at)
    ensures Picks(kept + [o], all + [o], at + [|all|])
  {}

  lemma PicksMore(kept: seq<Delivered>, all: seq<Delivered>, at: seq<nat>, o: Delivered)
    requires Picks(kept, all, at)
    ensures Picks(kept, all + [o], at)
  {}

  // ----- What a run pushes, returns and closes with -----

  /** What the application call of this event returns. */
  function Answer(t: Track, e: Event): Option<Reading> {
    if e.Reads? then Some(Read(t, e.contextDone, e.pick).1) else None
  }

  /** All objects the calls of ReadObject have returned, in order. */
  function Returned(events: seq<Event>): seq<Delivered> {
    if events == [] then []
    else
      var init := events[..|events| - 1];
      var r := Answer(Run(init), events[|events| - 1]);
      Returned(init) + if r.Some? && r.value.Got? then [r.value.item] else []
  }

  function PushedIn(events: seq<Event>): seq<Delivered> {
    if events == [] then []
    else
      var e := events[|events| - 1];
      PushedIn(events[..|events| - 1]) + if e.Pushes? then [e.item] else []
  }

  /** The cause of the first call of done. */
  function FirstCause(events: seq<Event>): Option<Cause> {
    if events == [] then None
    else if events[0].Finishes? then Some(events[0].cause)
    else FirstCause(events[1..])
  }

  lemma {:induction false} HistoryIs(events: seq<Event>)
    ensures Run(events).read == Returned(events) && Run(events).pushed == PushedIn(events)
  {
    if events != [] {
      HistoryIs(events[..|events| - 1]);
    }
  }

  lemma {:induction false} FirstCauseSnoc(events: seq<Event>, e: Event)
    ensures FirstCause(events + [e]) ==
      if FirstCause(events).Some? then FirstCause(events) else if e.Finishes? then Some(e.cause) else None
  {
    if events == [] {
      assert [] + [e] == [e];
      assert [e][1..] == [];
    } else {
      assert (events + [e])[1..] == events[1..] + [e];
      FirstCauseSnoc(events[1..], e);
    }
  }

  lemma {:induction false} DoneIsFirst(events: seq<Event>)
    ensures Run(events).done == FirstCause(events)
  {
    if events != [] {
      var init, e := events[..|events| - 1], events[|events| - 1];
      DoneIsFirst(init);
      FirstCauseSnoc(init, e);
      assert init + [e] == events;
    }
  }

  lemma {:induction false} KeptConserved(events: seq<Event>)
    ensures Conserved(Run(events))
  {
    if events == [] {
      assert Picks([], [], []);
    } else {
      var before, e := Run(events[..|events| - 1]), events[|events| - 1];
      KeptConserved(events[..|events| - 1]);
      match e {
        case Pushes(o) => PushConserves(before, o);
        case Reads(contextDone, pick) =>
          var after := Run(events);
          assert after.read + after.buffer == before.read + before.buffer;
        case Finishes(_) =>
      }
    }
  }

  // ----- Main results -----

  /** In every run, the objects that calls returned followed by those in the buffer are an in-order selection from
      what was pushed: none is invented, repeated or overtaken.  The buffer never exceeds 100 objects. */
  lemma RunConserves(events: seq<Event>)
    ensures |Run(events).buffer| <= 100
    ensures exists at: seq<nat> :: Picks(Returned(events) + Run(events).buffer, PushedIn(events), at)
  {
    KeptConserved(events);
    HistoryIs(events);
  }

  /** At every point of every run: a call that gets an object gets the oldest one in the buffer, the only one it
      removes; one that ends reports the first cause done was given; one is cancelled only when its context has
      ended; and one blocks exactly when the case it takes is not ready. */
  lemma AnswerIs(events: seq<Event>, contextDone: bool, pick: Pick)
    ensures var t, e := Run(events), Reads(contextDone, pick);
      var u, r := Run(events + [e]), Answer(t, e).value;
      && (r.Got? <==> pick.PickBuffer? && t.buffer != [])
      && (r.Got? ==> t.buffer == [r.item] + u.buffer && r.afterDone == FirstCause(events).Some?)
      && (r.Ended? <==> pick.PickDone? && FirstCause(events).Some?)
      && (r.Ended? ==> Some(r.cause) == FirstCause(events))
      && (r.Cancelled? <==> pick.PickContext? && contextDone)
      && (!r.Got? ==> u.buffer == t.buffer)
  {
    var e := Reads(contextDone, pick);
    assert (events + [e])[..|events|] == events;
    DoneIsFirst(events);
  }

  /** At no point of the run were more than a buffer's worth of pushes ahead of the objects returned. */
  ghost predicate KeepsUp(events: seq<Event>) {
    forall k :: 0 <= k <= |events| ==> |PushedIn(events[..k])| - |Returned(events[..k])| <= 100
  }

  lemma {:induction false} DropIff(events: seq<Event>)
    ensures Dropped(Run(events)) == 0 <==> KeepsUp(events)
  {
    KeptConserved(events);
    HistoryIs(events);
    assert events[..|events|] == events;
    if events != [] {
      var init := events[..|events| - 1];
      DropIff(init);
      KeptConserved(init);
      assert forall k :: 0 <= k < |events| ==> init[..k] == events[..k];
      assert KeepsUp(events) <==> KeepsUp(init) && |PushedIn(events)| - |Returned(events)| <= 100;
      assert Dropped(Run(init)) <= Dropped(Run(events));
    }
  }

  /** Nothing is dropped exactly when the reader keeps up, and then the objects returned and the buffer are the
      pushes. */
  lemma NothingLostIff(events: seq<Event>)
    ensures Returned(events) + Run(events).buffer == PushedIn(events) <==> KeepsUp(events)
  {
    var t := Run(events);
    DropIff(events);
    KeptConserved(events);
    HistoryIs(events);
    if KeepsUp(events) {
      var at: seq<nat> :| Picks(t.read + t.buffer, t.pushed, at);
      AllPicked(t.read + t.buffer, t.pushed, at);
    }
  }

  /** An increasing selection as long as the sequence is the sequence. */
  lemma AllPicked(kept: seq<Delivered>, all: seq<Delivered>, at: seq<nat>)
    requires Picks(kept, all, at) && |kept| == |all|
    ensures kept == all
  {
    forall i | 0 <= i < |at|
      ensures at[i] == i
    {
      AtLeast(at, i);
      AtMost(all, at, i);
    }
  }

  lemma {:induction false} AtLeast(at: seq<nat>, i: nat)
    requires i < |at| && forall i, j :: 0 <= i < j < |at| ==> at[i] < at[j]
    ensures i <= at[i]
  {
    if i > 0 {
      AtLeast(at, i - 1);
    }
  }

  lemma {:induction false} AtMost(all: seq<Delivered>, at: seq<nat>, i: nat)
    requires i < |at| == |all| && forall i :: 0 <= i < |at| ==> at[i] < |all|
    requires forall i, j :: 0 <= i < j < |at| ==> at[i] < at[j]
    ensures at[i] <= i
    decreases |at| - i
  {
    if i + 1 < |at| {
      AtMost(all, at, i + 1);
    }
  }

  // ----- The track object -----

  function Delivery(o: Object): Delivered {
    Delivered(o.group, o.subgroup, o.id, o.payload)
  }

  function PushAll(t: Track, os: seq<Object>): Track
    decreases |os|
  {
    if os == [] then t else PushAll(Push(t, Delivery(os[0])), os[1..])
  }

  datatype StreamError = TooManyFetchStreams | Broken(error: WireError)

  class RemoteTrack {
    var buffer: seq<Delivered>
    var done: Option<Cause>
    var subgroupCount: nat
    var fetchCount: nat
    ghost var pushed: seq<Delivered>
    ghost var read: seq<Delivered>

    ghost function View(): Track
      reads this
    {
      Track(buffer, done, pushed, read)
    }

    constructor ()
      ensures View() == EMPTY && subgroupCount == 0 && fetchCount == 0
    {
      buffer, done, subgroupCount, fetchCount := [], None, 0, 0;
      pushed, read := [], [];
    }

    method PushObject(o: Delivered)
      modifies this`buffer, this`pushed
      ensures View() == Push(old(View()), o)
      ensures buffer == old(buffer) + if |old(buffer)| < 100 then [o] else []
    {
      if |buffer| < CAPACITY {
        buffer := buffer + [o];
      }
      pushed := pushed + [o];
    }

    method ReadObject(contextDone: bool, pick: Pick) returns (r: Reading)
      modifies this`buffer, this`read
      ensures (View(), r) == Read(old(View()), contextDone, pick)
      ensures r.Got? <==> pick.PickBuffer? && old(buffer) != []
      ensures r.Got? ==> r.item == old(buffer)[0] && buffer == old(buffer)[1..] && read == old(read) + [r.item]
      ensures r.Got? ==> r.afterDone == done.Some?
      ensures !r.Got? ==> buffer == old(buffer) && read == old(read)
      ensures r.Ended? <==> pick.PickDone? && done.Some?
      ensures r.Ended? ==> r.cause == done.value
      ensures r.Cancelled? <==> pick.PickContext? && contextDone
    {
      if pick.PickContext? && contextDone {
        return Cancelled;
      }
      if pick.PickDone? && done.Some? {
        return Ended(done.value);
      }
      if pick.PickBuffer? && buffer != [] {
        r := Got(buffer[0], done.Some?);
        read := read + [buffer[0]];
        buffer := buffer[1..];
        return;
      }
      r := Blocked;
    }

    method Done(c: Cause)
      modifies this`done
      ensures View() == Finish(old(View()), c)
      ensures done == if old(done).Some? then old(done) else Some(c)
    {
      if done.None? {
        done := Some(c);
      }
    }

    /** The loop over one stream: every object up to the first error is pushed; end of input is no error. */
    method ReadStream(parser: ObjectStreamParser) returns (e: Option<StreamError>)
      modifies this`buffer, this`pushed, parser, parser.reader
      ensures var (os, err) := ReadObjects(old(parser.HeaderOf()), old(parser.reader.rest));
        && View() == PushAll(old(View()), os)
        && e == if err == Eof then None else Some(Broken(err))
    {
      ghost var h, start := parser.HeaderOf(), View();
      ghost var all := ReadObjects(h, parser.reader.rest);
      while true
        invariant parser.HeaderOf() == h
        invariant PushAll(start, all.0) == PushAll(View(), ReadObjects(h, parser.reader.rest).0)
        invariant all.1 == ReadObjects(h, parser.reader.rest).1
        invariant done == start.done && read == start.read
        decreases |parser.reader.rest|
      {
        ghost var s := parser.reader.rest;
        ReadObjectsStep(h, s);
        var o := parser.Next();
        if o.Failure? {
          return if o.error == Eof then None else Some(Broken(o.error));
        }
        PushObject(Delivery(o.value));
      }
    }

    method ReadSubgroupStream(parser: ObjectStreamParser) returns (e: Option<StreamError>)
      modifies this`buffer, this`pushed, this`subgroupCount, parser, parser.reader
      ensures subgroupCount == old(subgroupCount) + 1
      ensures var (os, err) := ReadObjects(old(parser.HeaderOf()), old(parser.reader.rest));
        && View() == PushAll(old(View()), os)
        && e == if err == Eof then None else Some(Broken(err))
    {
      subgroupCount := subgroupCount + 1;
      e := ReadStream(parser);
    }

    /** Only the first fetch stream of a track is read. */
    method ReadFetchStream(parser: ObjectStreamParser) returns (e: Option<StreamError>)
      modifies this`buffer, this`pushed, this`fetchCount, parser, parser.reader
      ensures fetchCount == old(fetchCount) + 1
      ensures old(fetchCount) > 0 ==> e == Some(TooManyFetchStreams) && View() == old(View())
      ensures old(fetchCount) == 0 ==>
        var (os, err) := ReadObjects(old(parser.HeaderOf()), old(parser.reader.rest));
        && View() == PushAll(old(View()), os)
        && e == if err == Eof then None else Some(Broken(err))
    {
      fetchCount := fetchCount + 1;
      if fetchCount > 1 {
        return Some(TooManyFetchStreams);
      }
      e := ReadStream(parser);
    }
  }

  lemma ReadObjectsStep(h: Header, s: Bytes)
    ensures var o := ParseObject(h, s);
      ReadObjects(h, s) == if o.Failure? then ([], o.error)
        else ([o.value.0] + ReadObjects(h, o.value.1).0, ReadObjects(h, o.value.1).1)
    ensures ParseObject(h, s).Success? ==>
      forall t: Track {:trigger PushAll(t, ReadObjects(h, s).0)} ::
        PushAll(t, ReadObjects(h, s).0) ==
        PushAll(Push(t, Delivery(ParseObject(h, s).value.0)), ReadObjects(h, ParseObject(h, s).value.1).0)
  {
    var o := ParseObject(h, s);
    if o.Success? {
      var rest := ReadObjects(h, o.value.1).0;
      assert ([o.value.0] + rest)[1..] == rest;
    }
  }

  // ----- From the publisher's stream to the subscriber's buffer -----

  function Deliveries(os: seq<Object>): (ds: seq<Delivered>)
    ensures |ds| == |os| && forall i :: 0 <= i < |os| ==> ds[i] == Delivery(os[i])
  {
    if os == [] then [] else [Delivery(os[0])] + Deliveries(os[1..])
  }

  lemma Chain(a: seq<Delivered>, x: Delivered, b: seq<Delivered>)
    ensures (a + [x]) + b == a + ([x] + b)
  {}

  lemma {:induction false} RoomForAll(t: Track, os: seq<Object>)
    requires |t.buffer| + |os| <= CAPACITY
    decreases |os|
    ensures PushAll(t, os).buffer == t.buffer + Deliveries(os)
  {
    if os == [] {
      assert t.buffer + Deliveries(os) == t.buffer;
    } else {
      RoomForAll(Push(t, Delivery(os[0])), os[1..]);
      Chain(t.buffer, Delivery(os[0]), Deliveries(os[1..]));
    }
  }

  /** Objects without extension headers, written to one stream, end up in the buffer in order if it has room: group
      and subgroup of a fetch stream's objects are their own, of a subgroup stream's those of the header. */
  lemma StreamReachesBuffer(t: Track, h: Header, os: seq<Object>)
    requires Written(h) && Plain(os) && |t.buffer| + |os| <= 100
    ensures var u := PushAll(t, ReadObjects(h, EncodeObjects(h, os)).0);
      && |u.buffer| == |t.buffer| + |os| && u.buffer[..|t.buffer|] == t.buffer
      && forall i :: 0 <= i < |os| ==>
           u.buffer[|t.buffer| + i] ==
           if h.kind == 0x05 then Delivered(os[i].group, os[i].subgroup, os[i].id, os[i].payload)
           else Delivered(h.group, h.subgroup, os[i].id, os[i].payload)
  {
    ObjectsArrive(h, os);
    ReadableAllIff(h, os);
    RoomForAll(t, Readable(h, os));
    assert forall i :: 0 <= i < |os| ==> Readable(h, os)[i] == Arrived(h, os[i]);
  }
}
