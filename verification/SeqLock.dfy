/**
 Sequence lock from a writer that never waits to a reader that retries, copied word by word.

 Writer and reader steps interleave arbitrarily (sequential consistency). The sequence counter
 is a 32-bit register; `sequence` below is its unwrapped value.
 */
module SeqLock {

  type Words = seq<int>

  const WRAP: nat := 0x1_0000_0000

  /** Write(): between the two stores of the sequence, `next` is the next word to copy. */
  datatype Writer = WriterIdle | Writing(v: Words, next: nat)

  /**
   Read(): `before` is the loaded register; `start` and `first` are the unwrapped sequence and the newest
   value at that moment.
   */
  datatype Reader = ReaderIdle | Reading(before: nat, start: nat, first: nat, copy: Words)

  /** A returned value; values `first` and `last` were the newest when the read began and ended. */
  datatype Returned = Returned(copy: Words, first: nat, last: nat)

  /** `published` lists the complete values, the initial one first. */
  datatype State = State(sequence: nat, value: Words, writer: Writer, reader: Reader,
                         published: seq<Words>, returned: seq<Returned>)

  datatype Action = WriteBegin(v: Words) | WriteWord | WriteEnd | ReadBegin | ReadWord | ReadEnd

  function Register(sequence: nat): (r: nat) { sequence % WRAP }

  predicate Possible(s: State, a: Action) {
    match a
    case WriteBegin(v) => s.writer.WriterIdle? && |v| == |s.value|
    case WriteWord => s.writer.Writing? && s.writer.next < |s.value| == |s.writer.v|
    case WriteEnd => s.writer.Writing? && s.writer.next == |s.value|
    case ReadBegin => s.reader.ReaderIdle?
    case ReadWord => s.reader.Reading? && |s.reader.copy| < |s.value|
    case ReadEnd => s.reader.Reading? && |s.reader.copy| == |s.value|
  }

  function Next(s: State, a: Action): (r: State)
    requires Possible(s, a) && |s.published| > 0
    ensures |r.published| > 0
  {
    match a
    case WriteBegin(v) => s.(sequence := s.sequence + 1, writer := Writing(v, 0))
    case WriteWord =>
      var j := s.writer.next;
      s.(value := s.value[j := s.writer.v[j]], writer := Writing(s.writer.v, j + 1))
    case WriteEnd =>
      s.(sequence := s.sequence + 1, writer := WriterIdle, published := s.published + [s.writer.v])
    case ReadBegin =>
      if Register(s.sequence) % 2 != 0 then s  // a write is under way: the next try
      else s.(reader := Reading(Register(s.sequence), s.sequence, |s.published| - 1, []))
    case ReadWord => s.(reader := s.reader.(copy := s.reader.copy + [s.value[|s.reader.copy|]]))
    case ReadEnd =>
      if Register(s.sequence) == s.reader.before then
        s.(reader := ReaderIdle,
           returned := s.returned + [Returned(s.reader.copy, s.reader.first, |s.published| - 1)])
      else s.(reader := ReaderIdle)
  }

  predicate Initial(s: State) {
    && s.sequence == 0 && s.writer.WriterIdle? && s.reader.ReaderIdle?
    && s.published == [s.value] && s.returned == []
  }

  /** A read overlaps fewer than 2^31 writes, so the register does not come round to the same value. */
  predicate Narrow(s: State) {
    s.reader.Reading? ==> s.sequence - s.reader.start < WRAP
  }

  // ----- What every step keeps -----------------------------------------------------

  predicate WriterInv(s: State) {
    && |s.published| > 0
    && match s.writer
       case WriterIdle => s.sequence == 2 * (|s.published| - 1) && s.value == s.published[|s.published| - 1]
       case Writing(v, next) =>
         && s.sequence == 2 * |s.published| - 1
         && |v| == |s.value| && next <= |v| && s.value[..next] == v[..next]
  }

  /** While the sequence stands still, the copy is a prefix of the newest value. */
  predicate ReaderInv(s: State) {
    s.reader.Reading? ==>
      && s.reader.before == Register(s.reader.start) && s.reader.start == 2 * s.reader.first
      && s.reader.start <= s.sequence && |s.reader.copy| <= |s.value|
      && (s.sequence == s.reader.start ==>
            s.reader.copy == s.value[..|s.reader.copy|] && s.reader.first == |s.published| - 1)
  }

  /** Every returned value is one that was published, the newest one from begin to end of its read. */
  ghost predicate ReturnedInv(s: State) {
    forall r :: r in s.returned ==> r.first == r.last < |s.published| && r.copy == s.published[r.first]
  }

  ghost predicate Inv(s: State) { WriterInv(s) && ReaderInv(s) && ReturnedInv(s) }

  lemma NextKeepsInv(s: State, a: Action)
    requires Inv(s) && Possible(s, a) && Narrow(s)
    ensures Inv(Next(s, a))
  {
    var n := Next(s, a);
    if a.WriteWord? {
      var j := s.writer.next;
      assert n.value[..j + 1] == s.value[..j] + [s.writer.v[j]];
      assert s.writer.v[..j + 1] == s.writer.v[..j] + [s.writer.v[j]];
    } else if a.WriteEnd? {
      assert s.value == s.value[..|s.value|] && s.writer.v == s.writer.v[..|s.value|];
    } else if a.ReadWord? {
      var k := |s.reader.copy|;
      assert s.value[..k + 1] == s.value[..k] + [s.value[k]];
    } else if a.ReadEnd? {
      if Register(s.sequence) == s.reader.before {
        SameRegisterSameSequence(s.reader.start, s.sequence);
        assert s.value[..|s.value|] == s.value;
      }
    }
  }

  lemma SameRegisterSameSequence(start: nat, now: nat)
    requires start <= now && now - start < WRAP && Register(start) == Register(now)
    ensures start == now
  {
  }

  // ----- Whole runs ---------------------------------------------------------------------

  function Run(s: State, actions: seq<Action>): (r: State)
    requires |s.published| > 0
    ensures |r.published| > 0
    decreases |actions|
  {
    if |actions| == 0 then s
    else Run(if Possible(s, actions[0]) then Next(s, actions[0]) else s, actions[1..])
  }

  ghost predicate AlwaysNarrow(s: State, actions: seq<Action>)
    requires |s.published| > 0
  {
    forall n :: 0 <= n <= |actions| ==> Narrow(Run(s, actions[..n]))
  }

  lemma {:induction false} RunKeepsInv(s: State, actions: seq<Action>)
    requires Inv(s) && AlwaysNarrow(s, actions)
    ensures Inv(Run(s, actions))
    decreases |actions|
  {
    if |actions| != 0 {
      assert actions[..0] == [] && Narrow(Run(s, actions[..0]));
      var next := if Possible(s, actions[0]) then Next(s, actions[0]) else s;
      if Possible(s, actions[0]) {
        NextKeepsInv(s, actions[0]);
      }
      forall n | 0 <= n <= |actions| - 1
        ensures Narrow(Run(next, actions[1..][..n]))
      {
        assert actions[..n + 1][1..] == actions[1..][..n];
        assert Narrow(Run(s, actions[..n + 1]));
      }
      RunKeepsInv(next, actions[1..]);
    }
  }

  /**
   Read() returns a value that one complete write published (or the initial one), and which was
   the newest when the read began and still when it ended, however the copies interleave.
   */
  lemma ReadReturnsCurrentValue(s: State, actions: seq<Action>, r: Returned)
    requires Initial(s) && AlwaysNarrow(s, actions)
    requires r in Run(s, actions).returned
    ensures var e := Run(s, actions);
            r.first == r.last < |e.published| && r.copy == e.published[r.first]
  {
    RunKeepsInv(s, actions);
  }

  /** A try fails only because a write began or ended since it started. */
  lemma RetryMeansOverlap(s: State, actions: seq<Action>)
    requires Initial(s) && AlwaysNarrow(s, actions)
    ensures var e := Run(s, actions);
            Possible(e, ReadEnd) ==>
              (Next(e, ReadEnd).returned == e.returned <==> e.sequence != e.reader.start)
  {
    RunKeepsInv(s, actions);
    var e := Run(s, actions);
    if Possible(e, ReadEnd) {
      assert Narrow(Run(s, actions[..|actions|])) && actions[..|actions|] == actions;
      if Register(e.sequence) == e.reader.before {
        SameRegisterSameSequence(e.reader.start, e.sequence);
      }
    }
  }

  // ----- Without interruption ------------------------------------------------------------------

  function Repeat(a: Action, n: nat): (r: seq<Action>) { if n == 0 then [] else [a] + Repeat(a, n - 1) }

  lemma {:induction false} RunSplits(s: State, first: seq<Action>, second: seq<Action>)
    requires |s.published| > 0
    ensures Run(s, first + second) == Run(Run(s, first), second)
    decreases |first|
  {
    if |first| == 0 {
      assert first + second == second;
    } else {
      assert (first + second)[0] == first[0] && (first + second)[1..] == first[1..] + second;
      RunSplits(if Possible(s, first[0]) then Next(s, first[0]) else s, first[1..], second);
    }
  }

  lemma OneAction(s: State, a: Action)
    requires |s.published| > 0 && Possible(s, a)
    ensures Run(s, [a]) == Next(s, a)
  {
    assert [a][1..] == [];
  }

  lemma {:induction false} WordsAreWritten(s: State, n: nat)
    requires |s.published| > 0 && s.writer.Writing? && s.writer.next + n == |s.writer.v| == |s.value|
    requires s.value[..s.writer.next] == s.writer.v[..s.writer.next]
    ensures Run(s, Repeat(WriteWord, n)) == s.(value := s.writer.v, writer := Writing(s.writer.v, |s.value|))
    decreases n
  {
    if n != 0 {
      var r := Next(s, WriteWord);
      var j := s.writer.next;
      assert r.value[..j + 1] == s.value[..j] + [s.writer.v[j]];
      assert Repeat(WriteWord, n)[1..] == Repeat(WriteWord, n - 1);
      WordsAreWritten(r, n - 1);
    }
  }

  lemma {:induction false} WordsAreRead(s: State, n: nat)
    requires |s.published| > 0 && s.reader.Reading? && |s.reader.copy| + n == |s.value|
    requires s.reader.copy == s.value[..|s.reader.copy|]
    ensures Run(s, Repeat(ReadWord, n)) == s.(reader := s.reader.(copy := s.value))
    decreases n
  {
    if n != 0 {
      var k := |s.reader.copy|;
      assert s.value[..k + 1] == s.value[..k] + [s.value[k]];
      assert Repeat(ReadWord, n)[1..] == Repeat(ReadWord, n - 1);
      WordsAreRead(Next(s, ReadWord), n - 1);
    }
  }

  /** The steps of a write in a row do what Write() does: the whole value, and the sequence two further. */
  lemma UndisturbedWrite(s: State, v: Words)
    requires |s.published| > 0 && s.writer.WriterIdle? && |v| == |s.value|
    ensures Run(s, [WriteBegin(v)] + Repeat(WriteWord, |v|) + [WriteEnd])
         == s.(sequence := s.sequence + 2, value := v, published := s.published + [v])
  {
    RunSplits(s, [WriteBegin(v)] + Repeat(WriteWord, |v|), [WriteEnd]);
    RunSplits(s, [WriteBegin(v)], Repeat(WriteWord, |v|));
    OneAction(s, WriteBegin(v));
    WordsAreWritten(Next(s, WriteBegin(v)), |v|);
    OneAction(Run(s, [WriteBegin(v)] + Repeat(WriteWord, |v|)), WriteEnd);
  }

  /** Nothing happens in the place of a try that did not start. */
  lemma {:induction false} NothingToRead(s: State, n: nat)
    requires |s.published| > 0 && s.reader.ReaderIdle?
    ensures Run(s, Repeat(ReadWord, n) + [ReadEnd]) == s
    decreases n
  {
    var actions := Repeat(ReadWord, n) + [ReadEnd];
    if n == 0 {
      assert actions[1..] == [];
    } else {
      assert actions[1..] == Repeat(ReadWord, n - 1) + [ReadEnd];
      NothingToRead(s, n - 1);
    }
  }

  lemma TryReturns(s: State, v: Words)
    requires |s.published| > 0 && s.reader.Reading? && s.reader.copy == [] && s.reader.before == Register(s.sequence)
    requires v == s.value
    ensures Run(s, Repeat(ReadWord, |v|) + [ReadEnd])
         == s.(reader := ReaderIdle, returned := s.returned + [Returned(v, s.reader.first, |s.published| - 1)])
  {
    RunSplits(s, Repeat(ReadWord, |v|), [ReadEnd]);
    WordsAreRead(s, |v|);
    OneAction(Run(s, Repeat(ReadWord, |v|)), ReadEnd);
  }

  /** The steps of a try in a row. */
  function Try(n: nat): (r: seq<Action>) { [ReadBegin] + (Repeat(ReadWord, n) + [ReadEnd]) }

  lemma TryBegins(s: State, n: nat)
    requires |s.published| > 0 && s.reader.ReaderIdle?
    ensures Run(s, Try(n)) == Run(Next(s, ReadBegin), Repeat(ReadWord, n) + [ReadEnd])
  {
    assert Try(n)[1..] == Repeat(ReadWord, n) + [ReadEnd];
  }

  /** Without a write under way a try returns the value, as Read() does. */
  lemma UndisturbedRead(s: State)
    requires WriterInv(s) && s.reader.ReaderIdle? && s.writer.WriterIdle?
    ensures var newest := |s.published| - 1;
            Run(s, Try(|s.value|)) == s.(returned := s.returned + [Returned(s.value, newest, newest)])
  {
    EvenWhileIdle(|s.published| - 1);
    EvenTry(s, s.value);
  }

  lemma EvenTry(s: State, v: Words)
    requires |s.published| > 0 && s.reader.ReaderIdle? && Register(s.sequence) % 2 == 0 && v == s.value
    ensures var newest := |s.published| - 1;
            Run(s, Try(|v|)) == s.(returned := s.returned + [Returned(v, newest, newest)])
  {
    TryBegins(s, |v|);
    TryReturns(Next(s, ReadBegin), v);
  }

  /** While a write is under way a try changes nothing. */
  lemma ReadWaits(s: State)
    requires WriterInv(s) && s.reader.ReaderIdle? && s.writer.Writing?
    ensures Run(s, Try(|s.value|)) == s
  {
    TryBegins(s, |s.value|);
    OddWhileWriting(|s.published|);
    NothingToRead(s, |s.value|);
  }

  lemma EvenWhileIdle(n: nat)
    ensures Register(2 * n) % 2 == 0
  {
  }

  lemma OddWhileWriting(n: nat)
    requires n > 0
    ensures Register(2 * n - 1) % 2 == 1
  {
  }

  // ----- The lock as it runs on one core ----------------------------------------------------

  /** A write that preempts a try of the reader after `at` copied words. */
  datatype Preemption = Preemption(at: nat, v: Words)

  class Lock {
    var value: array<int>
    var sequence: nat

    /** Write(): the writer is never preempted by the reader. */
    method Write(v: Words)
      requires |v| == value.Length
      modifies value, `sequence
      ensures value[..] == v && sequence == old(sequence) + 2
    {
      sequence := sequence + 1;
      for j := 0 to value.Length
        invariant forall i :: 0 <= i < j ==> value[i] == v[i]
        modifies value
      {
        value[j] := v[j];
      }
      sequence := sequence + 1;
    }

    /** Read(), with one write in each of the first tries; the try without one returns. */
    method Read(writes: seq<Preemption>) returns (copy: Words)
      requires sequence % 2 == 0
      requires forall w :: w in writes ==> w.at <= value.Length == |w.v|
      modifies value, `sequence
      ensures copy == value[..]
      ensures copy == if |writes| == 0 then old(value[..]) else writes[|writes| - 1].v
      ensures sequence == old(sequence) + 2 * |writes|
    {
      var tried := 0;
      while true
        invariant tried <= |writes| && sequence == old(sequence) + 2 * tried
        invariant value[..] == if tried == 0 then old(value[..]) else writes[tried - 1].v
        decreases |writes| - tried
      {
        var before := Register(sequence);
        copy := [];
        ghost var at := if tried < |writes| then writes[tried].at else value.Length;
        for j := 0 to value.Length
          invariant |copy| == j
          invariant sequence == old(sequence) + 2 * if tried < |writes| && at < j then tried + 1 else tried
          invariant value[..] == if tried < |writes| && at < j then writes[tried].v
                                 else if tried == 0 then old(value[..]) else writes[tried - 1].v
          invariant tried == |writes| ==> copy == value[..j]
        {
          if tried < |writes| && writes[tried].at == j {
            assert writes[tried] in writes;
            Write(writes[tried].v);
          }
          copy := copy + [value[j]];
        }
        if tried < |writes| && writes[tried].at == value.Length {
          assert writes[tried] in writes;
          Write(writes[tried].v);
        }
        if Register(sequence) == before {
          return;
        }
        tried := tried + 1;
      }
    }

    constructor (v: Words)
      ensures value[..] == v && sequence == 0 && fresh(value)
    {
      value := new int[|v|](i requires 0 <= i < |v| => v[i]);
      sequence := 0;
    }
  }
}
