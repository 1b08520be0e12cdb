/**
 Queue of edges from an interrupt (producer) to a thread (consumer) without locks.

 Producer and consumer steps interleave arbitrarily; entries are copied word by word in both
 directions. `k` is the ring size.
 */
module EdgeQueue {

  type Words = seq<int>

  // ----- Positions in the ring --------------------------------------------------------

  /** The position after `p`. */
  function After(p: nat, k: nat): (r: nat)
    requires p < k
    ensures r == if p + 1 == k then 0 else p + 1
  {
    (p + 1) % k
  }

  /** The position of the n-th entry since start-up. */
  function Position(n: nat, k: nat): (r: nat)
    requires k > 0
    ensures r < k
  {
    if n == 0 then 0 else After(Position(n - 1, k), k)
  }

  /** The position `d` entries after `p`. */
  function Ahead(p: nat, d: nat, k: nat): (r: nat)
    requires p < k && d <= k
    ensures r < k
  {
    if p + d < k then p + d else p + d - k
  }

  lemma {:induction false} PositionAhead(n: nat, d: nat, k: nat)
    requires 0 < k && d <= k
    ensures Position(n + d, k) == Ahead(Position(n, k), d, k)
  {
    if d != 0 {
      PositionAhead(n, d - 1, k);
    }
  }

  /** Two positions coincide only when the ring between them is empty or full. */
  lemma SameSlot(from: nat, to: nat, k: nat)
    requires 0 < k && from <= to <= from + k
    ensures Position(from, k) == Position(to, k) <==> to == from || to == from + k
  {
    PositionAhead(from, to - from, k);
  }

  // ----- Steps of producer and consumer ---------------------------------------------------

  /** Push() after it found room: `written` words of `entry` are stored. */
  datatype Producer = NotPushing | Storing(entry: Words, written: nat)

  /** Pop() after it found an entry: the words copied so far. */
  datatype Consumer = NotPopping | Copying(copy: Words)

  /** `accepted` and `popped` list the entries in order; `pushes` counts the calls of Push(). */
  datatype State = State(slots: seq<Words>, head: nat, tail: nat, overruns: nat,
                         producer: Producer, consumer: Consumer,
                         accepted: seq<Words>, popped: seq<Words>, pushes: nat) {
    const k := |slots|
  }

  datatype Action = PushBegin(entry: Words) | PushWord | PushEnd | PopBegin | PopWord | PopEnd

  predicate Shape(s: State, width: nat) {
    && s.k >= 2 && s.head < s.k && s.tail < s.k
    && (forall i :: 0 <= i < s.k ==> |s.slots[i]| == width)
    && (s.producer.Storing? ==> s.producer.written <= |s.producer.entry| == width)
    && (s.consumer.Copying? ==> |s.consumer.copy| <= width)
  }

  predicate Possible(s: State, width: nat, a: Action) {
    match a
    case PushBegin(entry) => s.producer.NotPushing? && |entry| == width
    case PushWord => s.producer.Storing? && s.producer.written < width
    case PushEnd => s.producer.Storing? && s.producer.written == width
    case PopBegin => s.consumer.NotPopping?
    case PopWord => s.consumer.Copying? && |s.consumer.copy| < width
    case PopEnd => s.consumer.Copying? && |s.consumer.copy| == width
  }

  function Next(s: State, width: nat, a: Action): (r: State)
    requires Shape(s, width) && Possible(s, width, a)
    ensures Shape(r, width)
  {
    match a
    case PushBegin(entry) =>
      var p := s.(pushes := s.pushes + 1);
      if After(s.head, s.k) == s.tail then p.(overruns := s.overruns + 1)
      else p.(producer := Storing(entry, 0))
    case PushWord =>
      var (entry, j) := (s.producer.entry, s.producer.written);
      s.(slots := s.slots[s.head := s.slots[s.head][j := entry[j]]], producer := Storing(entry, j + 1))
    case PushEnd =>
      s.(head := After(s.head, s.k), producer := NotPushing, accepted := s.accepted + [s.producer.entry])
    case PopBegin => if s.tail == s.head then s else s.(consumer := Copying([]))
    case PopWord =>
      var copy := s.consumer.copy;
      s.(consumer := Copying(copy + [s.slots[s.tail][|copy|]]))
    case PopEnd =>
      s.(tail := After(s.tail, s.k), consumer := NotPopping, popped := s.popped + [s.consumer.copy])
  }

  predicate Initial(s: State, width: nat) {
    && Shape(s, width) && s.head == s.tail == 0 && s.overruns == 0 && s.pushes == 0
    && s.producer.NotPushing? && s.consumer.NotPopping? && s.accepted == s.popped == []
  }

  // ----- What every step keeps -----------------------------------------------------------

  predicate Held(s: State, i: nat)
    requires s.k > 0 && i < |s.accepted|
  {
    s.slots[Position(i, s.k)] == s.accepted[i]
  }

  predicate Inv(s: State, width: nat) {
    && Shape(s, width)
    && |s.popped| <= |s.accepted| <= |s.popped| + (s.k - 1)
    && (forall i :: 0 <= i < |s.accepted| ==> |s.accepted[i]| == width)
    && s.popped == s.accepted[..|s.popped|]
    && s.head == Position(|s.accepted|, s.k) && s.tail == Position(|s.popped|, s.k)
    && (forall i :: |s.popped| <= i < |s.accepted| ==> Held(s, i))
    && s.pushes == |s.accepted| + s.overruns + (if s.producer.Storing? then 1 else 0)
    && (s.producer.Storing? ==>
          && |s.accepted| < |s.popped| + (s.k - 1)
          && s.slots[s.head][..s.producer.written] == s.producer.entry[..s.producer.written])
    && (s.consumer.Copying? ==>
          && |s.popped| < |s.accepted|
          && s.consumer.copy == s.accepted[|s.popped|][..|s.consumer.copy|])
  }

  lemma PushBeginKeepsInv(s: State, width: nat, entry: Words)
    requires Inv(s, width) && Possible(s, width, PushBegin(entry))
    ensures Inv(Next(s, width, PushBegin(entry)), width)
  {
    var n := Next(s, width, PushBegin(entry));
    SameSlot(|s.popped|, |s.accepted| + 1, s.k);
    assert entry[..0] == [];
    forall i | |s.popped| <= i < |s.accepted|
      ensures Held(n, i)
    {
      assert Held(s, i);
    }
  }

  lemma PushWordKeepsInv(s: State, width: nat)
    requires Inv(s, width) && Possible(s, width, PushWord)
    ensures Inv(Next(s, width, PushWord), width)
  {
    var n := Next(s, width, PushWord);
    var (entry, j) := (s.producer.entry, s.producer.written);
    assert entry[..j + 1] == entry[..j] + [entry[j]];
    assert n.slots[s.head][..j + 1] == s.slots[s.head][..j] + [entry[j]];
    forall i | |s.popped| <= i < |s.accepted|
      ensures Held(n, i)
    {
      assert Held(s, i);
      SameSlot(i, |s.accepted|, s.k);
    }
  }

  lemma PushEndKeepsInv(s: State, width: nat)
    requires Inv(s, width) && Possible(s, width, PushEnd)
    ensures Inv(Next(s, width, PushEnd), width)
  {
    var n := Next(s, width, PushEnd);
    assert s.producer.entry[..width] == s.producer.entry && s.slots[s.head][..width] == s.slots[s.head];
    forall i | |s.popped| <= i <= |s.accepted|
      ensures Held(n, i)
    {
      assert i < |s.accepted| ==> Held(s, i);
    }
  }

  lemma PopKeepsInv(s: State, width: nat, a: Action)
    requires Inv(s, width) && Possible(s, width, a) && (a.PopBegin? || a.PopWord? || a.PopEnd?)
    ensures Inv(Next(s, width, a), width)
  {
    var n := Next(s, width, a);
    var first := |s.popped|;
    SameSlot(first, |s.accepted|, s.k);
    forall i | |n.popped| <= i < |n.accepted|
      ensures Held(n, i)
    {
      assert Held(s, i);
    }
    if a.PopWord? {
      var j := |s.consumer.copy|;
      assert Held(s, first);
      assert s.accepted[first][..j + 1] == s.accepted[first][..j] + [s.accepted[first][j]];
    } else if a.PopEnd? {
      assert s.accepted[first][..width] == s.accepted[first];
      assert s.accepted[..first + 1] == s.accepted[..first] + [s.accepted[first]];
    }
  }

  lemma NextKeepsInv(s: State, width: nat, a: Action)
    requires Inv(s, width) && Possible(s, width, a)
    ensures Inv(Next(s, width, a), width)
  {
    match a
    case PushBegin(entry) => PushBeginKeepsInv(s, width, entry);
    case PushWord => PushWordKeepsInv(s, width);
    case PushEnd => PushEndKeepsInv(s, width);
    case _ => PopKeepsInv(s, width, a);
  }

  // ----- Whole runs ------------------------------------------------------------------------

  function Step(s: State, width: nat, a: Action): (r: State)
    requires Shape(s, width)
    ensures Shape(r, width)
  {
    if Possible(s, width, a) then Next(s, width, a) else s
  }

  function Run(s: State, width: nat, actions: seq<Action>): (r: State)
    requires Shape(s, width)
    ensures Shape(r, width)
    decreases |actions|
  {
    if |actions| == 0 then s else Run(Step(s, width, actions[0]), width, actions[1..])
  }

  lemma {:induction false} RunKeepsInv(s: State, width: nat, actions: seq<Action>)
    requires Inv(s, width)
    ensures Inv(Run(s, width, actions), width)
    decreases |actions|
  {
    if |actions| != 0 {
      if Possible(s, width, actions[0]) {
        NextKeepsInv(s, width, actions[0]);
      }
      RunKeepsInv(Step(s, width, actions[0]), width, actions[1..]);
    }
  }

  /**
   A bounded FIFO: what was popped is a prefix of what was accepted, unchanged and in order; at most
   k - 1 entries are held; every finished Push() was accepted or counted as an overrun.
   */
  lemma PopsInOrder(s: State, width: nat, actions: seq<Action>)
    requires Initial(s, width)
    ensures var e := Run(s, width, actions);
            && e.popped <= e.accepted
            && |e.accepted| - |e.popped| <= e.k - 1
            && e.pushes == |e.accepted| + e.overruns + (if e.producer.Storing? then 1 else 0)
  {
    RunKeepsInv(s, width, actions);
  }

  /** An entry is refused exactly when k - 1 are held, and Pop() finds nothing exactly when none is. */
  lemma RefusesOnlyWhenFull(s: State, width: nat, actions: seq<Action>, entry: Words)
    requires Initial(s, width) && |entry| == width
    ensures var e := Run(s, width, actions);
            && (e.producer.NotPushing? ==>
                  (Next(e, width, PushBegin(entry)).overruns != e.overruns <==> |e.accepted| - |e.popped| == e.k - 1))
            && (e.consumer.NotPopping? ==>
                  (Next(e, width, PopBegin).consumer.NotPopping? <==> |e.accepted| == |e.popped|))
  {
    RunKeepsInv(s, width, actions);
    var e := Run(s, width, actions);
    SameSlot(|e.popped|, |e.accepted| + 1, e.k);
    SameSlot(|e.popped|, |e.accepted|, e.k);
  }

  /** The producer never writes a slot that holds an entry which was not popped yet. */
  lemma NoHeldSlotIsWritten(s: State, width: nat, actions: seq<Action>, i: nat)
    requires Initial(s, width)
    requires var e := Run(s, width, actions);
             e.producer.Storing? && |e.popped| <= i < |e.accepted|
    ensures var e := Run(s, width, actions);
            e.head != Position(i, e.k) && e.slots[Position(i, e.k)] == e.accepted[i]
  {
    RunKeepsInv(s, width, actions);
    var e := Run(s, width, actions);
    assert Held(e, i);
    SameSlot(i, |e.accepted|, e.k);
  }

  // ----- Without interruption ------------------------------------------------------------------

  function Repeat(a: Action, n: nat): (r: seq<Action>) { if n == 0 then [] else [a] + Repeat(a, n - 1) }

  lemma {:induction false} RunSplits(s: State, width: nat, first: seq<Action>, second: seq<Action>)
    requires Shape(s, width)
    ensures Run(s, width, first + second) == Run(Run(s, width, first), width, second)
    decreases |first|
  {
    if |first| == 0 {
      assert first + second == second;
    } else {
      assert (first + second)[0] == first[0] && (first + second)[1..] == first[1..] + second;
      RunSplits(Step(s, width, first[0]), width, first[1..], second);
    }
  }

  lemma OneAction(s: State, width: nat, a: Action)
    requires Shape(s, width)
    ensures Run(s, width, [a]) == Step(s, width, a)
  {
    assert [a][1..] == [];
  }

  lemma {:induction false} WordsAreStored(s: State, width: nat, n: nat)
    requires Shape(s, width) && s.producer.Storing? && s.producer.written + n == width
    requires s.slots[s.head][..s.producer.written] == s.producer.entry[..s.producer.written]
    ensures Run(s, width, Repeat(PushWord, n))
         == s.(slots := s.slots[s.head := s.producer.entry], producer := Storing(s.producer.entry, width))
    decreases n
  {
    var (entry, j) := (s.producer.entry, s.producer.written);
    if n == 0 {
      assert s.slots[s.head] == s.slots[s.head][..j] == entry[..j] == entry;
    } else {
      var r := Next(s, width, PushWord);
      assert r.slots[s.head][..j + 1] == s.slots[s.head][..j] + [entry[j]] == entry[..j + 1];
      assert Repeat(PushWord, n)[1..] == Repeat(PushWord, n - 1);
      WordsAreStored(r, width, n - 1);
      assert r.slots[s.head := entry] == s.slots[s.head := entry];
    }
  }

  lemma {:induction false} WordsAreCopied(s: State, width: nat, n: nat)
    requires Shape(s, width) && s.consumer.Copying? && |s.consumer.copy| + n == width
    requires s.consumer.copy == s.slots[s.tail][..|s.consumer.copy|]
    ensures Run(s, width, Repeat(PopWord, n)) == s.(consumer := Copying(s.slots[s.tail]))
    decreases n
  {
    var (copy, slot) := (s.consumer.copy, s.slots[s.tail]);
    if n == 0 {
      assert slot == slot[..width];
    } else {
      assert slot[..|copy| + 1] == slot[..|copy|] + [slot[|copy|]];
      assert Repeat(PopWord, n)[1..] == Repeat(PopWord, n - 1);
      WordsAreCopied(Next(s, width, PopWord), width, n - 1);
    }
  }

  lemma StoreThenEnd(s: State, width: nat, entry: Words)
    requires Shape(s, width) && s.producer == Storing(entry, 0)
    ensures Run(s, width, Repeat(PushWord, width) + [PushEnd])
         == s.(slots := s.slots[s.head := entry], head := After(s.head, s.k), producer := NotPushing,
               accepted := s.accepted + [entry])
  {
    RunSplits(s, width, Repeat(PushWord, width), [PushEnd]);
    WordsAreStored(s, width, width);
    OneAction(Run(s, width, Repeat(PushWord, width)), width, PushEnd);
  }

  lemma CopyThenEnd(s: State, width: nat, entry: Words)
    requires Shape(s, width) && s.consumer == Copying([]) && entry == s.slots[s.tail]
    ensures Run(s, width, Repeat(PopWord, width) + [PopEnd])
         == s.(tail := After(s.tail, s.k), consumer := NotPopping, popped := s.popped + [entry])
  {
    RunSplits(s, width, Repeat(PopWord, width), [PopEnd]);
    WordsAreCopied(s, width, width);
    OneAction(Run(s, width, Repeat(PopWord, width)), width, PopEnd);
  }

  /** The first of some actions, then the others. */
  lemma OneThenRest(s: State, width: nat, a: Action, rest: seq<Action>)
    requires Shape(s, width)
    ensures Run(s, width, [a] + rest) == Run(Step(s, width, a), width, rest)
  {
    assert ([a] + rest)[1..] == rest;
  }

  lemma PushFindsRoom(s: State, width: nat, entry: Words)
    requires Inv(s, width) && s.producer.NotPushing? && |entry| == width && |s.accepted| < |s.popped| + (s.k - 1)
    ensures Step(s, width, PushBegin(entry)) == s.(pushes := s.pushes + 1, producer := Storing(entry, 0))
  {
    SameSlot(|s.popped|, |s.accepted| + 1, s.k);
  }

  /** The steps of a push in a row accept the entry if the ring has room, as Push() does. */
  lemma UndisturbedPush(s: State, width: nat, entry: Words)
    requires Inv(s, width) && s.producer.NotPushing? && |entry| == width && |s.accepted| < |s.popped| + (s.k - 1)
    ensures Run(s, width, [PushBegin(entry)] + (Repeat(PushWord, width) + [PushEnd]))
         == s.(slots := s.slots[s.head := entry], head := After(s.head, s.k), accepted := s.accepted + [entry],
               pushes := s.pushes + 1)
  {
    PushFindsRoom(s, width, entry);
    OneThenRest(s, width, PushBegin(entry), Repeat(PushWord, width) + [PushEnd]);
    StoreThenEnd(Step(s, width, PushBegin(entry)), width, entry);
  }

  lemma PopFindsEntry(s: State, width: nat)
    requires Inv(s, width) && s.consumer.NotPopping? && |s.popped| < |s.accepted|
    ensures Step(s, width, PopBegin) == s.(consumer := Copying([]))
    ensures s.slots[s.tail] == s.accepted[|s.popped|]
  {
    SameSlot(|s.popped|, |s.accepted|, s.k);
    assert Held(s, |s.popped|);
  }

  /** The steps of a pop in a row take the oldest entry, as Pop() does. */
  lemma UndisturbedPop(s: State, width: nat)
    requires Inv(s, width) && s.consumer.NotPopping? && |s.popped| < |s.accepted|
    ensures Run(s, width, [PopBegin] + (Repeat(PopWord, width) + [PopEnd]))
         == s.(tail := After(s.tail, s.k), popped := s.popped + [s.accepted[|s.popped|]])
  {
    PopFindsEntry(s, width);
    OneThenRest(s, width, PopBegin, Repeat(PopWord, width) + [PopEnd]);
    CopyThenEnd(Step(s, width, PopBegin), width, s.accepted[|s.popped|]);
  }

  // ----- The queue on an array ----------------------------------------------------------------

  class Queue<T(0)> {
    const size: nat
    var entries: array<T>
    var head: nat
    var tail: nat
    var overruns: nat

    predicate Valid()
      reads this
    {
      entries.Length == size >= 2 && head < size && tail < size
    }

    /** Number of entries held. */
    function Count(): (n: nat)
      requires Valid()
      reads this
      ensures n < size && Ahead(tail, n, size) == head
    {
      if tail <= head then head - tail else head + size - tail
    }

    /** The entries held, the oldest first. */
    function Contents(): (c: seq<T>)
      requires Valid()
      reads this, entries
      ensures |c| == Count()
    {
      if tail <= head then entries[tail..head] else entries[tail..] + entries[..head]
    }

    constructor (size: nat)
      requires size >= 2
      ensures Valid() && this.size == size && fresh(entries) && Contents() == [] && overruns == 0
    {
      this.size := size;
      entries := new T[size];
      head, tail, overruns := 0, 0, 0;
    }

    method Push(entry: T)
      requires Valid()
      modifies entries, `head, `overruns
      ensures Valid()
      ensures |old(Contents())| < size - 1 ==>
                Contents() == old(Contents()) + [entry] && overruns == old(overruns)
      ensures |old(Contents())| == size - 1 ==>
                Contents() == old(Contents()) && overruns == old(overruns) + 1
    {
      var next := After(head, size);
      if next == tail {
        overruns := overruns + 1;
        return;
      }
      entries[head] := entry;
      head := next;
    }

    method Pop() returns (found: bool, entry: T)
      requires Valid()
      modifies `tail
      ensures Valid() && found == (|old(Contents())| > 0)
      ensures found ==> old(Contents()) == [entry] + Contents()
      ensures !found ==> Contents() == old(Contents())
    {
      entry := entries[tail];
      if tail == head {
        return false, entry;
      }
      tail := After(tail, size);
      return true, entry;
    }
  }
}
