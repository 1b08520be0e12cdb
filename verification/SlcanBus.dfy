/**
 The input side of all slcan ports: they share one receive ring, and Pop() polls each of them before
 it takes the oldest frame. Whatever the order of polls and pops, no port loses or reorders a frame.
 */
module SlcanBus {
  import opened Units
  import opened SlcanCodec
  import opened SlcanPort
  import opened SlcanReceiver

  const RX_QUEUE_LENGTH := 16
  const MAX_CHARS_PER_POP := 1024

  // ----- One poll ----------------------------------------------------------------------------------

  /** A frame of the ring, with the port that it came from. */
  datatype Tagged = Tagged(port: nat, frame: CanFrame)

  function Tag(port: nat, frames: seq<CanFrame>): (t: seq<Tagged>)
    ensures |t| == |frames|
  {
    seq(|frames|, k requires 0 <= k < |frames| => Tagged(port, frames[k]))
  }

  function Zip(tags: seq<nat>, frames: seq<CanFrame>): (t: seq<Tagged>)
    requires |tags| == |frames|
    ensures |t| == |frames|
  {
    seq(|frames|, k requires 0 <= k < |frames| => Tagged(tags[k], frames[k]))
  }

  /** The frames of one port, in order. */
  function Of(frames: seq<Tagged>, port: nat): (f: seq<CanFrame>) {
    if |frames| == 0 then []
    else
      var last := frames[|frames| - 1];
      Of(frames[..|frames| - 1], port) + if last.port == port then [last.frame] else []
  }

  lemma {:induction false} OfConcat(first: seq<Tagged>, second: seq<Tagged>, port: nat)
    ensures Of(first + second, port) == Of(first, port) + Of(second, port)
    decreases |second|
  {
    var all := first + second;
    if |second| == 0 {
      assert all == first;
    } else {
      assert all[..|all| - 1] == first + second[..|second| - 1];
      OfConcat(first, second[..|second| - 1], port);
    }
  }

  lemma {:induction false} OfTag(port: nat, frames: seq<CanFrame>, p: nat)
    ensures Of(Tag(port, frames), p) == if p == port then frames else []
    decreases |frames|
  {
    if |frames| != 0 {
      var init := frames[..|frames| - 1];
      OfTag(port, init, p);
      assert Tag(port, frames)[..|frames| - 1] == Tag(port, init);
      assert frames == init + [frames[|frames| - 1]];
    }
  }

  /**
   Where a poll with `held` frames in the ring stops that has taken `n` of `chars`: at their end, at its
   limit, or with a full ring.
   */
  function CharsTaken(held: nat, a: Assembler, chars: string, n: nat): (end: nat)
    requires n <= |chars|
    ensures n <= end <= |chars| && (end <= MAX_CHARS_PER_POP || end == n)
    decreases |chars| - n
  {
    if n >= MAX_CHARS_PER_POP || n == |chars| || held + |Received(a, chars[..n])| >= RX_QUEUE_LENGTH then n
    else CharsTaken(held, a, chars, n + 1)
  }

  lemma {:induction false} RingNeverOverflows(held: nat, a: Assembler, chars: string, n: nat)
    requires n <= |chars| && held + |Received(a, chars[..n])| <= RX_QUEUE_LENGTH
    ensures held + |Received(a, chars[..CharsTaken(held, a, chars, n)])| <= RX_QUEUE_LENGTH
    decreases |chars| - n
  {
    if CharsTaken(held, a, chars, n) != n {
      LastApart(a, chars, n);
      RingNeverOverflows(held, a, chars, n + 1);
    }
  }

  /** The ring and the line of each port. */
  datatype Bus = Bus(queue: seq<Tagged>, lines: seq<Assembler>)

  /** How many of the characters that port `i` holds a poll takes. */
  function TakenNow(b: Bus, i: nat, chars: string): (n: nat)
    requires i < |b.lines|
    ensures n <= |chars|
  {
    CharsTaken(|b.queue|, b.lines[i], chars, 0)
  }

  function NewFrames(b: Bus, i: nat, chars: string): (f: seq<CanFrame>)
    requires i < |b.lines|
  {
    Received(b.lines[i], chars[..TakenNow(b, i, chars)])
  }

  /** Poll() */
  function Polled(b: Bus, i: nat, chars: string): (n: Bus)
    requires i < |b.lines|
    ensures |n.lines| == |b.lines|
  {
    Bus(b.queue + Tag(i, NewFrames(b, i, chars)),
        b.lines[i := After(b.lines[i], chars[..TakenNow(b, i, chars)])])
  }

  lemma {:induction false} NewFramesFit(b: Bus, i: nat, chars: string)
    requires i < |b.lines| && |b.queue| <= RX_QUEUE_LENGTH
    ensures |Polled(b, i, chars).queue| <= RX_QUEUE_LENGTH
  {
    RingNeverOverflows(|b.queue|, b.lines[i], chars, 0);
  }

  /** A poll that stands at `end` has met its limit, the end of the characters or a full ring. */
  predicate Stops(held: nat, a: Assembler, chars: string, end: nat)
    requires end <= |chars|
  {
    end == |chars| || end >= MAX_CHARS_PER_POP || held + |Received(a, chars[..end])| >= RX_QUEUE_LENGTH
  }

  lemma OneMoreTaken(held: nat, a: Assembler, chars: string, n: nat)
    requires n <= |chars|
    ensures Stops(held, a, chars, n) <==> CharsTaken(held, a, chars, n) == n
    ensures !Stops(held, a, chars, n) ==> CharsTaken(held, a, chars, n) == CharsTaken(held, a, chars, n + 1)
  {
  }

  lemma {:induction false} StopsForAReason(held: nat, a: Assembler, chars: string, n: nat)
    requires n <= |chars|
    ensures Stops(held, a, chars, CharsTaken(held, a, chars, n))
    decreases |chars| - n
  {
    OneMoreTaken(held, a, chars, n);
    if !Stops(held, a, chars, n) {
      StopsForAReason(held, a, chars, n + 1);
    }
  }

  /** Nowhere before that. */
  lemma {:induction false} GoesOn(held: nat, a: Assembler, chars: string, n: nat, m: nat)
    requires n <= |chars| && n <= m < CharsTaken(held, a, chars, n)
    ensures !Stops(held, a, chars, m)
    decreases m - n
  {
    OneMoreTaken(held, a, chars, n);
    if n < m {
      GoesOn(held, a, chars, n + 1, m);
    }
  }

  /**
   A poll takes as much as it may: it leaves characters only at its limit or with a full ring, and while the
   ring has room it takes them one by one.
   */
  lemma {:induction false} PollTakesWhatItCan(b: Bus, i: nat, chars: string)
    requires i < |b.lines|
    ensures var n := TakenNow(b, i, chars);
            && n <= MAX_CHARS_PER_POP
            && (n < |chars| && n < MAX_CHARS_PER_POP ==> |Polled(b, i, chars).queue| >= RX_QUEUE_LENGTH)
            && (|b.queue| < RX_QUEUE_LENGTH && |chars| > 0 ==> n > 0)
            && (|b.queue| >= RX_QUEUE_LENGTH ==> n == 0)
  {
    StopsForAReason(|b.queue|, b.lines[i], chars, 0);
    OneMoreTaken(|b.queue|, b.lines[i], chars, 0);
  }

  lemma {:induction false} TagGrows(queue: seq<Tagged>, port: nat, frames: seq<CanFrame>, more: seq<CanFrame>)
    ensures queue + Tag(port, frames + more) == (queue + Tag(port, frames)) + Tag(port, more)
  {
  }

  lemma {:induction false} OneMoreChar(queue: seq<Tagged>, i: nat, a: Assembler, chars: string, n: nat)
    requires n < |chars|
    ensures var line := After(a, chars[..n]);
            && After(a, chars[..n + 1]) == AfterChar(line, chars[n])
            && queue + Tag(i, Received(a, chars[..n + 1]))
            == (queue + Tag(i, Received(a, chars[..n]))) + Tag(i, Completed(line, chars[n]))
  {
    LastApart(a, chars, n);
    TagGrows(queue, i, Received(a, chars[..n]), Completed(After(a, chars[..n]), chars[n]));
  }

  /** The polls of the first `n` ports, in order. */
  function PolledUpTo(b: Bus, arrived: seq<string>, n: nat): (p: Bus)
    requires n <= |arrived| == |b.lines|
    ensures |p.lines| == |b.lines|
  {
    if n == 0 then b else Polled(PolledUpTo(b, arrived, n - 1), n - 1, arrived[n - 1])
  }

  /** The characters that they take of each. */
  function TakenUpTo(b: Bus, arrived: seq<string>, n: nat): (t: seq<nat>)
    requires n <= |arrived| == |b.lines|
    ensures |t| == n
  {
    if n == 0 then []
    else TakenUpTo(b, arrived, n - 1) + [TakenNow(PolledUpTo(b, arrived, n - 1), n - 1, arrived[n - 1])]
  }

  // ----- Polls and pops in any order -------------------------------------------------------------------

  /** `consumed[i]` characters of the stream of port `i` were taken; `popped` lists what left the ring. */
  datatype Rx = Rx(bus: Bus, consumed: seq<nat>, popped: seq<Tagged>)

  /** A poll of one port, whose UART holds `arrived` characters of its stream, or the end of Pop(). */
  datatype Access = Polling(port: nat, arrived: nat) | Popping

  predicate Shaped(r: Rx, streams: seq<string>) {
    && |r.bus.lines| == |r.consumed| == |streams|
    && forall i :: 0 <= i < |streams| ==> r.consumed[i] <= |streams[i]|
  }

  function Available(stream: string, consumed: nat, arrived: nat): (t: string)
    requires consumed <= |stream|
    ensures consumed + |t| <= |stream| && t <= stream[consumed..]
    ensures |t| == arrived || (|t| < arrived && consumed + |t| == |stream|)
  {
    if consumed + arrived <= |stream| then stream[consumed..consumed + arrived] else stream[consumed..]
  }

  function AfterPoll(r: Rx, streams: seq<string>, i: nat, arrived: nat): (n: Rx)
    requires Shaped(r, streams) && i < |streams|
    ensures Shaped(n, streams)
  {
    var chars := Available(streams[i], r.consumed[i], arrived);
    Rx(Polled(r.bus, i, chars), r.consumed[i := r.consumed[i] + TakenNow(r.bus, i, chars)], r.popped)
  }

  function AfterPop(r: Rx): (n: Rx) {
    if |r.bus.queue| == 0 then r
    else r.(bus := r.bus.(queue := r.bus.queue[1..]), popped := r.popped + [r.bus.queue[0]])
  }

  function Accessed(r: Rx, streams: seq<string>, x: Access): (n: Rx)
    requires Shaped(r, streams)
    ensures Shaped(n, streams)
  {
    match x
    case Popping => AfterPop(r)
    case Polling(i, arrived) => if i < |streams| then AfterPoll(r, streams, i, arrived) else r
  }

  function AllAccessed(r: Rx, streams: seq<string>, accesses: seq<Access>): (n: Rx)
    requires Shaped(r, streams)
    ensures Shaped(n, streams)
    decreases |accesses|
  {
    if |accesses| == 0 then r else AllAccessed(Accessed(r, streams, accesses[0]), streams, accesses[1..])
  }

  /** What the first `n` characters of a stream bring. */
  function Brought(stream: string, n: nat): (f: seq<CanFrame>)
    requires n <= |stream|
  {
    Received(EMPTY, stream[..n])
  }

  lemma {:induction false} AvailableFollows(stream: string, from: nat, arrived: nat, n: nat)
    requires from <= |stream| && n <= |Available(stream, from, arrived)|
    ensures stream[..from + n] == stream[..from] + Available(stream, from, arrived)[..n]
  {
    assert Available(stream, from, arrived)[..n] == stream[from..from + n];
  }

  lemma {:induction false} BroughtOnward(stream: string, from: nat, arrived: nat, n: nat)
    requires from <= |stream| && n <= |Available(stream, from, arrived)|
    ensures var (a, chars) := (After(EMPTY, stream[..from]), Available(stream, from, arrived)[..n]);
            && Brought(stream, from + n) == Brought(stream, from) + Received(a, chars)
            && After(EMPTY, stream[..from + n]) == After(a, chars)
  {
    var chars := Available(stream, from, arrived)[..n];
    AvailableFollows(stream, from, arrived, n);
    Portions(EMPTY, stream[..from], chars);
  }

  predicate LineInv(r: Rx, streams: seq<string>, p: nat)
    requires Shaped(r, streams) && p < |streams|
  {
    r.bus.lines[p] == After(EMPTY, streams[p][..r.consumed[p]])
  }

  /** Nothing is lost, doubled or reordered: popped frames and ring hold what the characters of a port brought. */
  predicate FramesInv(r: Rx, streams: seq<string>, p: nat)
    requires Shaped(r, streams) && p < |streams|
  {
    Of(r.popped + r.bus.queue, p) == Brought(streams[p], r.consumed[p])
  }

  predicate Tagging(frames: seq<Tagged>, ports: nat) { forall k :: 0 <= k < |frames| ==> frames[k].port < ports }

  predicate RxInv(r: Rx, streams: seq<string>) {
    && Shaped(r, streams) && |r.bus.queue| <= RX_QUEUE_LENGTH
    && Tagging(r.popped, |streams|) && Tagging(r.bus.queue, |streams|)
    && (forall p :: 0 <= p < |streams| ==> LineInv(r, streams, p))
    && (forall p :: 0 <= p < |streams| ==> FramesInv(r, streams, p))
  }

  lemma {:induction false} OfPolled(popped: seq<Tagged>, queue: seq<Tagged>, i: nat, frames: seq<CanFrame>, p: nat)
    ensures Of(popped + (queue + Tag(i, frames)), p)
         == Of(popped + queue, p) + if p == i then frames else []
  {
    assert popped + (queue + Tag(i, frames)) == (popped + queue) + Tag(i, frames);
    OfConcat(popped + queue, Tag(i, frames), p);
    OfTag(i, frames, p);
  }

  lemma {:induction false} PollKeepsLine(r: Rx, streams: seq<string>, i: nat, arrived: nat, p: nat)
    requires Shaped(r, streams) && i < |streams| && p < |streams| && LineInv(r, streams, p)
    ensures LineInv(AfterPoll(r, streams, i, arrived), streams, p)
  {
    if p == i {
      var chars := Available(streams[i], r.consumed[i], arrived);
      BroughtOnward(streams[i], r.consumed[i], arrived, TakenNow(r.bus, i, chars));
    }
  }

  lemma {:induction false} PollAppends(r: Rx, streams: seq<string>, i: nat, arrived: nat, p: nat)
    requires Shaped(r, streams) && i < |streams|
    ensures var n := AfterPoll(r, streams, i, arrived);
            var frames := NewFrames(r.bus, i, Available(streams[i], r.consumed[i], arrived));
            Of(n.popped + n.bus.queue, p) == Of(r.popped + r.bus.queue, p) + if p == i then frames else []
  {
    OfPolled(r.popped, r.bus.queue, i, NewFrames(r.bus, i, Available(streams[i], r.consumed[i], arrived)), p);
  }

  lemma {:induction false} PollBrings(r: Rx, streams: seq<string>, i: nat, arrived: nat)
    requires Shaped(r, streams) && i < |streams| && LineInv(r, streams, i)
    ensures var n := AfterPoll(r, streams, i, arrived);
            var frames := NewFrames(r.bus, i, Available(streams[i], r.consumed[i], arrived));
            Brought(streams[i], n.consumed[i]) == Brought(streams[i], r.consumed[i]) + frames
  {
    var chars := Available(streams[i], r.consumed[i], arrived);
    BroughtOnward(streams[i], r.consumed[i], arrived, TakenNow(r.bus, i, chars));
  }

  lemma {:induction false} PollKeepsFrames(r: Rx, streams: seq<string>, i: nat, arrived: nat, p: nat)
    requires Shaped(r, streams) && i < |streams| && p < |streams|
    requires LineInv(r, streams, p) && FramesInv(r, streams, p)
    ensures FramesInv(AfterPoll(r, streams, i, arrived), streams, p)
  {
    PollAppends(r, streams, i, arrived, p);
    if p == i {
      PollBrings(r, streams, i, arrived);
    }
  }

  lemma {:induction false} PollKeepsInv(r: Rx, streams: seq<string>, i: nat, arrived: nat)
    requires RxInv(r, streams) && i < |streams|
    ensures RxInv(AfterPoll(r, streams, i, arrived), streams)
  {
    var n := AfterPoll(r, streams, i, arrived);
    NewFramesFit(r.bus, i, Available(streams[i], r.consumed[i], arrived));
    forall p | 0 <= p < |streams|
      ensures LineInv(n, streams, p) && FramesInv(n, streams, p)
    {
      PollKeepsLine(r, streams, i, arrived, p);
      PollKeepsFrames(r, streams, i, arrived, p);
    }
  }

  lemma {:induction false} PopKeepsInv(r: Rx, streams: seq<string>)
    requires RxInv(r, streams)
    ensures RxInv(AfterPop(r), streams)
  {
    var n := AfterPop(r);
    assert n.popped + n.bus.queue == r.popped + r.bus.queue;
    forall p | 0 <= p < |streams|
      ensures LineInv(n, streams, p) && FramesInv(n, streams, p)
    {
      assert LineInv(r, streams, p) && FramesInv(r, streams, p);
    }
  }

  lemma {:induction false} AccessesKeepInv(r: Rx, streams: seq<string>, accesses: seq<Access>)
    requires RxInv(r, streams)
    ensures RxInv(AllAccessed(r, streams, accesses), streams)
    decreases |accesses|
  {
    if |accesses| != 0 {
      match accesses[0] {
        case Popping => PopKeepsInv(r, streams);
        case Polling(i, arrived) =>
          if i < |streams| {
            PollKeepsInv(r, streams, i, arrived);
          }
      }
      AccessesKeepInv(Accessed(r, streams, accesses[0]), streams, accesses[1..]);
    }
  }

  function Start(streams: seq<string>): (r: Rx)
    ensures Shaped(r, streams)
  {
    Rx(Bus([], seq(|streams|, _ => EMPTY)), seq(|streams|, _ => 0), [])
  }

  lemma {:induction false} StartInv(streams: seq<string>)
    ensures RxInv(Start(streams), streams)
  {
    forall p | 0 <= p < |streams|
      ensures LineInv(Start(streams), streams, p) && FramesInv(Start(streams), streams, p)
    {
      assert streams[p][..0] == "";
    }
  }

  /**
   However the polls of the ports and the pops alternate, and however the characters arrive: the frames
   popped and those in the ring are, port by port and in order, exactly the frames of the characters taken
   from that port; there are no others, and the shared ring never overflows.
   */
  lemma {:induction false} PopsInOrder(streams: seq<string>, accesses: seq<Access>)
    ensures var e := AllAccessed(Start(streams), streams, accesses);
            && |e.bus.queue| <= RX_QUEUE_LENGTH && Tagging(e.popped + e.bus.queue, |streams|)
            && forall p :: 0 <= p < |streams| ==>
                 Of(e.popped + e.bus.queue, p) == Received(EMPTY, streams[p][..e.consumed[p]])
  {
    StartInv(streams);
    AccessesKeepInv(Start(streams), streams, accesses);
    var e := AllAccessed(Start(streams), streams, accesses);
    forall p | 0 <= p < |streams|
      ensures Of(e.popped + e.bus.queue, p) == Received(EMPTY, streams[p][..e.consumed[p]])
    {
      assert FramesInv(e, streams, p);
    }
  }

  lemma {:induction false} FirstArePrefix(stream: string, n: nat)
    requires n <= |stream|
    ensures Received(EMPTY, stream[..n]) <= Received(EMPTY, stream)
  {
    assert stream == stream[..n] + stream[n..];
    Portions(EMPTY, stream[..n], stream[n..]);
  }

  /** So what is popped of a port is a prefix of the frames that the lines of its host bring. */
  lemma {:induction false} PoppedArePrefix(streams: seq<string>, accesses: seq<Access>, p: nat, items: seq<Item>)
    requires p < |streams| && ValidItems(items) && streams[p] == Concat(ItemTexts(items))
    ensures Of(AllAccessed(Start(streams), streams, accesses).popped, p) <= ItemsArriving(items)
  {
    var e := AllAccessed(Start(streams), streams, accesses);
    assert Of(e.popped, p) <= Received(EMPTY, streams[p][..e.consumed[p]]) by {
      PopsInOrder(streams, accesses);
      OfConcat(e.popped, e.bus.queue, p);
    }
    assert Received(EMPTY, streams[p]) == ItemsArriving(items) by {
      ItemsArriveInOrder(items);
    }
    FirstArePrefix(streams[p], e.consumed[p]);
  }

  lemma {:induction false} PopsArePrefixes(r: Rx, streams: seq<string>)
    requires RxInv(r, streams)
    ensures forall p :: 0 <= p < |streams| ==> Of(r.popped, p) <= Received(EMPTY, streams[p])
  {
    forall p | 0 <= p < |streams|
      ensures Of(r.popped, p) <= Received(EMPTY, streams[p])
    {
      assert FramesInv(r, streams, p);
      OfConcat(r.popped, r.bus.queue, p);
      FirstArePrefix(streams[p], r.consumed[p]);
    }
  }

  // ----- Pop() as polls and a pop ------------------------------------------------------------------------------

  /** What the UARTs hold for the polls of one Pop(). */
  function Arrived(r: Rx, streams: seq<string>, counts: seq<nat>): (c: seq<string>)
    requires Shaped(r, streams) && |counts| == |streams|
    ensures |c| == |streams|
  {
    seq(|streams|, i requires 0 <= i < |streams| => Available(streams[i], r.consumed[i], counts[i]))
  }

  function Polls(counts: seq<nat>, n: nat): (x: seq<Access>)
    requires n <= |counts|
  {
    if n == 0 then [] else Polls(counts, n - 1) + [Polling(n - 1, counts[n - 1])]
  }

  lemma {:induction false} OneMoreAccess(r: Rx, streams: seq<string>, accesses: seq<Access>, x: Access)
    requires Shaped(r, streams)
    ensures AllAccessed(r, streams, accesses + [x]) == Accessed(AllAccessed(r, streams, accesses), streams, x)
    decreases |accesses|
  {
    var all := accesses + [x];
    if |accesses| == 0 {
      assert all[1..] == [] && all[0] == x;
    } else {
      assert all[0] == accesses[0] && all[1..] == accesses[1..] + [x];
      OneMoreAccess(Accessed(r, streams, accesses[0]), streams, accesses[1..], x);
    }
  }

  /** The first `n` polls of one Pop(). */
  function AfterPolls(r: Rx, streams: seq<string>, counts: seq<nat>, n: nat): (e: Rx)
    requires Shaped(r, streams) && n <= |counts| == |streams|
    ensures Shaped(e, streams)
  {
    if n == 0 then r else AfterPoll(AfterPolls(r, streams, counts, n - 1), streams, n - 1, counts[n - 1])
  }

  lemma {:induction false} LastPoll(r: Rx, streams: seq<string>, counts: seq<nat>, n: nat)
    requires Shaped(r, streams) && n < |counts| == |streams|
    requires AllAccessed(r, streams, Polls(counts, n)) == AfterPolls(r, streams, counts, n)
    ensures AllAccessed(r, streams, Polls(counts, n + 1)) == AfterPolls(r, streams, counts, n + 1)
  {
    OneMoreAccess(r, streams, Polls(counts, n), Polling(n, counts[n]));
  }

  lemma {:induction false} PollsAreAccesses(r: Rx, streams: seq<string>, counts: seq<nat>)
    requires Shaped(r, streams) && |counts| == |streams|
    ensures AllAccessed(r, streams, Polls(counts, |counts|)) == AfterPolls(r, streams, counts, |counts|)
  {
    for n := 0 to |counts|
      invariant AllAccessed(r, streams, Polls(counts, n)) == AfterPolls(r, streams, counts, n)
    {
      LastPoll(r, streams, counts, n);
    }
  }

  /** From `r` to `e` the first `n` ports were polled, each where the last Pop() left its stream. */
  predicate PolledFirst(r: Rx, e: Rx, streams: seq<string>, counts: seq<nat>, n: nat)
    requires Shaped(r, streams) && Shaped(e, streams) && n <= |counts| == |streams|
  {
    var arrived := Arrived(r, streams, counts);
    && e.bus == PolledUpTo(r.bus, arrived, n) && e.popped == r.popped
    && (forall i :: n <= i < |streams| ==> e.consumed[i] == r.consumed[i])
    && forall i :: 0 <= i < n ==> e.consumed[i] == r.consumed[i] + TakenUpTo(r.bus, arrived, n)[i]
  }

  lemma {:induction false} OneMorePoll(r: Rx, e: Rx, streams: seq<string>, counts: seq<nat>, n: nat)
    requires Shaped(r, streams) && Shaped(e, streams) && n < |counts| == |streams|
    requires PolledFirst(r, e, streams, counts, n)
    ensures PolledFirst(r, AfterPoll(e, streams, n, counts[n]), streams, counts, n + 1)
  {
  }

  lemma {:induction false} PollsOneByOne(r: Rx, streams: seq<string>, counts: seq<nat>)
    requires Shaped(r, streams) && |counts| == |streams|
    ensures PolledFirst(r, AfterPolls(r, streams, counts, |counts|), streams, counts, |counts|)
  {
    var e := r;
    for n := 0 to |counts|
      invariant Shaped(e, streams) && e == AfterPolls(r, streams, counts, n)
      invariant PolledFirst(r, e, streams, counts, n)
    {
      OneMorePoll(r, e, streams, counts, n);
      e := AfterPoll(e, streams, n, counts[n]);
    }
  }

  function PopAccesses(counts: seq<nat>): (x: seq<Access>) { Polls(counts, |counts|) + [Popping] }

  /** A Pop() is the polls of all ports and a pop. */
  lemma {:induction false} PopIsAccesses(r: Rx, streams: seq<string>, counts: seq<nat>)
    requires Shaped(r, streams) && |counts| == |streams|
    ensures AllAccessed(r, streams, PopAccesses(counts)) == AfterPop(AfterPolls(r, streams, counts, |counts|))
  {
    PollsAreAccesses(r, streams, counts);
    OneMoreAccess(r, streams, Polls(counts, |counts|), Popping);
  }

  lemma {:induction false} PopRoundKeepsInv(r: Rx, streams: seq<string>, counts: seq<nat>)
    requires RxInv(r, streams) && |counts| == |streams|
    ensures RxInv(AfterPop(AfterPolls(r, streams, counts, |counts|)), streams)
  {
    PopIsAccesses(r, streams, counts);
    AccessesKeepInv(r, streams, PopAccesses(counts));
  }

  /** What Pop() returns and leaves behind, given what the UARTs hold. */
  predicate PopReturns(b: Bus, arrived: seq<string>, frame: Option<CanFrame>, taken: seq<nat>, n: Bus)
    requires |arrived| == |b.lines|
  {
    var p := PolledUpTo(b, arrived, |arrived|);
    && taken == TakenUpTo(b, arrived, |arrived|)
    && if |p.queue| == 0 then frame.None? && n == p
       else frame == Some(p.queue[0].frame) && n == p.(queue := p.queue[1..])
  }

  predicate AddsUp(before: seq<nat>, taken: seq<nat>, after: seq<nat>) {
    |before| == |taken| == |after| && forall i :: 0 <= i < |before| ==> after[i] == before[i] + taken[i]
  }

  function Sums(before: seq<nat>, taken: seq<nat>): (after: seq<nat>)
    requires |before| == |taken|
    ensures AddsUp(before, taken, after)
  {
    seq(|before|, i requires 0 <= i < |before| => before[i] + taken[i])
  }

  lemma SumsAreUnique(before: seq<nat>, taken: seq<nat>, a: seq<nat>, b: seq<nat>)
    requires AddsUp(before, taken, a) && AddsUp(before, taken, b)
    ensures a == b
  {
  }

  /** The same frame is popped in the run, tagged with its port. */
  ghost predicate PopsAs(frame: Option<CanFrame>, before: seq<Tagged>, after: seq<Tagged>) {
    if frame.None? then after == before else exists i :: after == before + [Tagged(i, frame.value)]
  }

  lemma ZipGrows(sources: seq<nat>, popped: seq<CanFrame>, frame: CanFrame, after: seq<Tagged>)
    requires |sources| == |popped| && PopsAs(Some(frame), Zip(sources, popped), after)
    ensures |after| == |sources| + 1 && after == Zip(sources + [after[|sources|].port], popped + [frame])
  {
  }

  /** Where a Pop() leads in a run, in terms of what it returns. */
  lemma {:induction false} PopRound(r: Rx, streams: seq<string>, counts: seq<nat>, frame: Option<CanFrame>,
                                    taken: seq<nat>, b: Bus)
    requires Shaped(r, streams) && |counts| == |streams|
    requires PopReturns(r.bus, Arrived(r, streams, counts), frame, taken, b)
    ensures var n := AfterPop(AfterPolls(r, streams, counts, |counts|));
            n.bus == b && AddsUp(r.consumed, taken, n.consumed) && PopsAs(frame, r.popped, n.popped)
  {
    PollsOneByOne(r, streams, counts);
    var m := AfterPolls(r, streams, counts, |counts|);
    if |m.bus.queue| > 0 {
      assert AfterPop(m).popped == r.popped + [Tagged(m.bus.queue[0].port, m.bus.queue[0].frame)];
    }
  }

  // ----- The ring on its array ------------------------------------------------------------------------------

  /** A position in the ring, at most one round ahead. */
  function Wrapped(p: nat): (r: nat)
    requires p < 2 * RX_QUEUE_LENGTH
    ensures r == if p < RX_QUEUE_LENGTH then p else p - RX_QUEUE_LENGTH
  {
    p % RX_QUEUE_LENGTH
  }

  /** `count` entries of a ring from `head` on. */
  function Ring(rx: seq<CanFrame>, head: nat, count: nat): (c: seq<CanFrame>)
    requires |rx| == RX_QUEUE_LENGTH && head < RX_QUEUE_LENGTH && count <= RX_QUEUE_LENGTH
    ensures |c| == count
  {
    seq(count, i requires 0 <= i < count => rx[Wrapped(head + i)])
  }

  lemma RingPush(rx: seq<CanFrame>, head: nat, count: nat, f: CanFrame)
    requires |rx| == RX_QUEUE_LENGTH && head < RX_QUEUE_LENGTH && count < RX_QUEUE_LENGTH
    ensures Ring(rx[Wrapped(head + count) := f], head, count + 1) == Ring(rx, head, count) + [f]
  {
    var (before, after) := (Ring(rx, head, count), Ring(rx[Wrapped(head + count) := f], head, count + 1));
    forall i | 0 <= i < count
      ensures after[i] == before[i]
    {
      assert Wrapped(head + i) != Wrapped(head + count);
    }
  }

  lemma RingPop(rx: seq<CanFrame>, head: nat, count: nat)
    requires |rx| == RX_QUEUE_LENGTH && head < RX_QUEUE_LENGTH && 0 < count <= RX_QUEUE_LENGTH
    ensures Ring(rx, head, count) == [rx[head]] + Ring(rx, Wrapped(head + 1), count - 1)
  {
    var (all, rest) := (Ring(rx, head, count), Ring(rx, Wrapped(head + 1), count - 1));
    assert all[0] == rx[Wrapped(head + 0)];
    forall i | 0 < i < count
      ensures all[i] == rest[i - 1]
    {
      assert Wrapped(head + i) == Wrapped(Wrapped(head + 1) + (i - 1));
    }
  }

  // ----- The ports and the ring as objects ----------------------------------------------------------------------

  /** The input side of one port. */
  class Input {
    const line: array<char>
    var lineLength: nat
    var lineOverflow: bool

    predicate Valid()
      reads this
    {
      line.Length == MAX_LINE && lineLength <= MAX_LINE
    }

    function Line(): (a: Assembler)
      requires Valid()
      reads this, line
    {
      Assembler(line[..lineLength], lineOverflow)
    }

    constructor ()
      ensures Valid() && fresh(line) && Line() == EMPTY
    {
      line := new char[MAX_LINE];
      lineLength, lineOverflow := 0, false;
    }

    /** A character that does not end a line. */
    method Collect(c: char)
      requires Valid() && !EndsLine(c)
      modifies this, line
      ensures Valid() && Line() == AfterChar(old(Line()), c)
    {
      if lineLength < line.Length {
        line[lineLength] := c;
        lineLength := lineLength + 1;
        assert line[..lineLength] == old(line[..lineLength]) + [c];
      } else {
        lineOverflow := true;
      }
    }

    method Clear()
      requires Valid()
      modifies this
      ensures Valid() && Line() == EMPTY
    {
      lineLength := 0;
      lineOverflow := false;
    }
  }

  /** The line of each port. */
  ghost function LinesOf(ports: seq<Input>): (a: seq<Assembler>)
    requires forall i :: 0 <= i < |ports| ==> ports[i].Valid()
    reads ports, set i | 0 <= i < |ports| :: ports[i].line
    ensures |a| == |ports| && forall i :: 0 <= i < |ports| ==> a[i] == ports[i].Line()
  {
    seq(|ports|, i requires 0 <= i < |ports| && ports[i].Valid()
                   reads ports, set j | 0 <= j < |ports| :: ports[j].line => ports[i].Line())
  }

  class Media {
    const ports: seq<Input>
    const rx: array<CanFrame>
    var head: nat
    var count: nat
    ghost var tags: seq<nat>  // history only: the ports of the frames in the ring

    /** No two ports share anything. */
    ghost predicate Apart() {
      && (forall i :: 0 <= i < |ports| ==> (ports[i] as object) != rx && (ports[i].line as object) != rx)
      && (forall i, j :: 0 <= i < j < |ports| ==> ports[i] != ports[j] && ports[i].line != ports[j].line)
    }

    ghost predicate RingValid()
      reads this
    {
      rx.Length == RX_QUEUE_LENGTH && head < RX_QUEUE_LENGTH && count <= RX_QUEUE_LENGTH && |tags| == count
    }

    ghost predicate Valid()
      reads this, ports
    {
      Apart() && RingValid() && forall i :: 0 <= i < |ports| ==> ports[i].Valid()
    }

    /** The frames in the ring, the oldest first. */
    ghost function Contents(): (c: seq<Tagged>)
      requires RingValid()
      reads this, rx
      ensures |c| == count
    {
      Zip(tags, Ring(rx[..], head, count))
    }

    ghost function View(): (b: Bus)
      requires Valid()
      reads this, rx, ports, set i | 0 <= i < |ports| :: ports[i].line
      ensures |b.lines| == |ports|
    {
      Bus(Contents(), LinesOf(ports))
    }

    constructor (ports: seq<Input>, none: CanFrame)
      requires forall i :: 0 <= i < |ports| ==> ports[i].Valid() && ports[i].Line() == EMPTY
      requires forall i, j :: 0 <= i < j < |ports| ==> ports[i] != ports[j] && ports[i].line != ports[j].line
      ensures Valid() && this.ports == ports && fresh(rx)
      ensures View() == Bus([], seq(|ports|, _ => EMPTY))
    {
      this.ports := ports;
      rx := new CanFrame[RX_QUEUE_LENGTH](_ => none);
      head, count, tags := 0, 0, [];
    }

    /** Appends a frame to the ring. */
    method Push(i: nat, frame: CanFrame)
      requires RingValid() && count < RX_QUEUE_LENGTH
      modifies rx, `count, `tags
      ensures RingValid() && Contents() == old(Contents()) + [Tagged(i, frame)]
    {
      ghost var frames := Ring(rx[..], head, count);
      RingPush(rx[..], head, count, frame);
      rx[Wrapped(head + count)] := frame;
      count := count + 1;
      tags := tags + [i];
      assert Ring(rx[..], head, count) == frames + [frame];
    }

    /** The part of Complete() that concerns received frames. */
    method Complete(i: nat)
      requires Valid() && i < |ports| && count < RX_QUEUE_LENGTH
      modifies rx, `count, `tags
      ensures Valid()
      ensures var frame := LineMeaning(ports[i].line[..ports[i].lineLength]).frame;
              Contents() == old(Contents()) + if frame.Some? then [Tagged(i, frame.value)] else []
    {
      var result := ParseLine(ports[i].line[..ports[i].lineLength]);
      if result.frame.Some? {
        Push(i, result.frame.value);
      }
    }

    /** Takes one character of port `i`. */
    method Take(i: nat, c: char)
      requires Valid() && i < |ports| && count < RX_QUEUE_LENGTH
      modifies rx, `count, `tags, ports[i], ports[i].line
      ensures Valid() && LinesOf(ports) == old(LinesOf(ports))[i := AfterChar(old(ports[i].Line()), c)]
      ensures Contents() == old(Contents()) + Tag(i, Completed(old(ports[i].Line()), c))
    {
      var port := ports[i];
      if !EndsLine(c) {
        port.Collect(c);
        return;
      }
      if !port.lineOverflow && port.lineLength > 0 {
        Complete(i);
      }
      port.Clear();
    }

    /** The loop of Poll(): at most MAX_CHARS_PER_POP characters, and none once the ring is full. */
    method TakeAvailable(i: nat, available: string) returns (consumed: nat)
      requires Valid() && i < |ports|
      modifies rx, `count, `tags, ports[i], ports[i].line
      ensures Valid() && consumed == CharsTaken(old(count), old(LinesOf(ports))[i], available, 0)
      ensures LinesOf(ports) == old(LinesOf(ports))[i := After(old(LinesOf(ports))[i], available[..consumed])]
      ensures Contents() == old(Contents()) + Tag(i, Received(old(LinesOf(ports))[i], available[..consumed]))
    {
      ghost var (queue, lines) := (Contents(), LinesOf(ports));
      ghost var start := lines[i];
      consumed := 0;
      while consumed < MAX_CHARS_PER_POP && count < RX_QUEUE_LENGTH && consumed < |available|
        invariant Valid() && consumed <= |available|
        invariant LinesOf(ports) == lines[i := After(start, available[..consumed])]
        invariant Contents() == queue + Tag(i, Received(start, available[..consumed]))
        invariant CharsTaken(|queue|, start, available, 0) == CharsTaken(|queue|, start, available, consumed)
      {
        OneMoreChar(queue, i, start, available, consumed);
        Take(i, available[consumed]);
        consumed := consumed + 1;
      }
    }

    /** Poll() */
    method Poll(i: nat, available: string) returns (consumed: nat)
      requires Valid() && i < |ports|
      modifies rx, `count, `tags, ports[i], ports[i].line
      ensures Valid() && consumed == TakenNow(old(View()), i, available)
      ensures View() == Polled(old(View()), i, available)
    {
      consumed := TakeAvailable(i, available);
    }

    /** The end of Pop(): the oldest frame, if any. */
    method TakeOldest() returns (frame: Option<CanFrame>)
      requires RingValid()
      modifies `head, `count, `tags
      ensures RingValid()
      ensures |old(Contents())| == 0 ==> frame.None? && Contents() == old(Contents())
      ensures |old(Contents())| > 0 ==>
                frame == Some(old(Contents())[0].frame) && Contents() == old(Contents())[1..]
    {
      if count == 0 {
        return None;
      }
      RingPop(rx[..], head, count);
      frame := Some(rx[head]);
      head := Wrapped(head + 1);
      count := count - 1;
      tags := tags[1..];
    }

    /** The loop of Pop(): polls every port, each with the characters that its UART holds. */
    method PollAll(arrived: seq<string>) returns (consumed: seq<nat>)
      requires Valid() && |arrived| == |ports|
      modifies rx, `count, `tags, ports, set i | 0 <= i < |ports| :: ports[i].line
      ensures Valid() && View() == PolledUpTo(old(View()), arrived, |ports|)
      ensures consumed == TakenUpTo(old(View()), arrived, |ports|)
    {
      ghost var b := View();
      consumed := [];
      for i := 0 to |ports|
        invariant Valid() && View() == PolledUpTo(b, arrived, i) && consumed == TakenUpTo(b, arrived, i)
      {
        var n := Poll(i, arrived[i]);
        consumed := consumed + [n];
      }
    }

    /** Pop(): polls every port, then takes the oldest frame. */
    method Pop(arrived: seq<string>) returns (frame: Option<CanFrame>, consumed: seq<nat>)
      requires Valid() && |arrived| == |ports|
      modifies this, rx, ports, set i | 0 <= i < |ports| :: ports[i].line
      ensures Valid() && PopReturns(old(View()), arrived, frame, consumed, View())
    {
      consumed := PollAll(arrived);
      ghost var p := View();
      frame := TakeOldest();
      assert LinesOf(ports) == p.lines;
    }

    /** One Pop() of a run that has led to `r`; `n` is where it leads. */
    method PopOnce(streams: seq<string>, consumed: seq<nat>, counts: seq<nat>, ghost r: Rx)
      returns (frame: Option<CanFrame>, next: seq<nat>, ghost n: Rx)
      requires Valid() && |streams| == |counts| == |ports| && Shaped(r, streams)
      requires View() == r.bus && consumed == r.consumed
      modifies this, rx, ports, set i | 0 <= i < |ports| :: ports[i].line
      ensures Valid() && View() == n.bus && next == n.consumed
      ensures n == AfterPop(AfterPolls(r, streams, counts, |counts|))
      ensures PopsAs(frame, r.popped, n.popped)
    {
      var arrived := seq(|ports|, i requires 0 <= i < |ports| => Available(streams[i], consumed[i], counts[i]));
      assert arrived == Arrived(r, streams, counts);
      var taken: seq<nat>;
      frame, taken := Pop(arrived);
      PopRound(r, streams, counts, frame, taken, View());
      n := AfterPop(AfterPolls(r, streams, counts, |counts|));
      next := Sums(consumed, taken);
      SumsAreUnique(consumed, taken, next, n.consumed);
    }

    /**
     From the start, any number of calls of Pop() while the streams of the hosts arrive in any portions:
     the frames delivered from each port are a prefix of those that its stream brings, in order.
     */
    method Deliver(streams: seq<string>, counts: seq<seq<nat>>) returns (popped: seq<CanFrame>, ghost sources: seq<nat>)
      requires Valid() && |streams| == |ports| && View() == Start(streams).bus
      requires forall k :: 0 <= k < |counts| ==> |counts[k]| == |ports|
      modifies this, rx, ports, set i | 0 <= i < |ports| :: ports[i].line
      ensures Valid()
      ensures |sources| == |popped| && forall k :: 0 <= k < |sources| ==> sources[k] < |ports|
      ensures forall p :: 0 <= p < |ports| ==> Of(Zip(sources, popped), p) <= Received(EMPTY, streams[p])
    {
      ghost var r := Start(streams);
      var consumed: seq<nat> := seq(|ports|, _ => 0);
      popped, sources := [], [];
      StartInv(streams);
      for k := 0 to |counts|
        invariant Valid() && RxInv(r, streams) && View() == r.bus && consumed == r.consumed
        invariant |sources| == |popped| && r.popped == Zip(sources, popped)
      {
        var frame;
        PopRoundKeepsInv(r, streams, counts[k]);
        frame, consumed, r := PopOnce(streams, consumed, counts[k], r);
        if frame.Some? {
          ZipGrows(sources, popped, frame.value, r.popped);
          popped := popped + [frame.value];
          sources := sources + [r.popped[|sources|].port];
        }
      }
      PopsArePrefixes(r, streams);
      assert forall k :: 0 <= k < |sources| ==> Zip(sources, popped)[k].port == sources[k];
    }
  }
}
