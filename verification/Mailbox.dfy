/**
 Hand-over of a value from a writer to a reader that preempts it, with the gain change built on it.

 The writer copies word by word into the inactive slot and then flips the index; SetCurrentGains()
 raises a flag after that. The control cycle is one step: it may run between any two of them.
 */
module Mailbox {

  type Words = seq<int>

  /** SetCurrentGains(): copying into the inactive slot, then between the flip and the flag. */
  datatype Writer = WriterIdle | Copying(v: Words, next: nat) | Flipped

  /** Gains the loop works with: those of the settings, or the n-th value that was handed over. */
  datatype Applied = FromSettings | FromMailbox(copy: Words, newest: nat)

  /** `published` lists the contents of the mailbox over time, the initial contents first. */
  datatype State = State(slots: seq<Words>, active: nat, pending: bool, writer: Writer,
                         applied: Applied, published: seq<Words>)

  datatype Action = WriteBegin(v: Words) | WriteWord | Flip | RaiseFlag | ControlCycle

  predicate Shape(s: State) {
    && |s.slots| == 2 && s.active < 2 && |s.slots[0]| == |s.slots[1]| && |s.published| > 0
    && (s.writer.Copying? ==> s.writer.next <= |s.writer.v| == |s.slots[0]|)
  }

  predicate Possible(s: State, a: Action)
    requires Shape(s)
  {
    match a
    case WriteBegin(v) => s.writer.WriterIdle? && |v| == |s.slots[0]|
    case WriteWord => s.writer.Copying? && s.writer.next < |s.writer.v|
    case Flip => s.writer.Copying? && s.writer.next == |s.writer.v|
    case RaiseFlag => s.writer.Flipped?
    case ControlCycle => true
  }

  function Next(s: State, a: Action): (r: State)
    requires Shape(s) && Possible(s, a)
    ensures Shape(r)
  {
    match a
    case WriteBegin(v) => s.(writer := Copying(v, 0))
    case WriteWord =>
      var (v, j, slot) := (s.writer.v, s.writer.next, 1 - s.active);
      s.(slots := s.slots[slot := s.slots[slot][j := v[j]]], writer := Copying(v, j + 1))
    case Flip => s.(active := 1 - s.active, writer := Flipped, published := s.published + [s.writer.v])
    case RaiseFlag => s.(pending := true, writer := WriterIdle)
    case ControlCycle =>
      if s.pending then
        s.(pending := false, applied := FromMailbox(s.slots[s.active], |s.published| - 1))
      else s
  }

  predicate Initial(s: State) {
    && Shape(s) && s.published == [s.slots[s.active]] && !s.pending && s.writer.WriterIdle? && s.applied.FromSettings?
  }

  predicate Inv(s: State) {
    && Shape(s)
    && s.slots[s.active] == s.published[|s.published| - 1]
    && (s.writer.Copying? ==> s.slots[1 - s.active][..s.writer.next] == s.writer.v[..s.writer.next])
    && (s.applied.FromMailbox? ==>
          s.applied.newest < |s.published| && s.applied.copy == s.published[s.applied.newest])
    && (!s.pending && !s.writer.Flipped? ==>
          if s.applied.FromMailbox? then s.applied.newest == |s.published| - 1 else |s.published| == 1)
  }

  lemma NextKeepsInv(s: State, a: Action)
    requires Inv(s) && Possible(s, a)
    ensures Inv(Next(s, a))
  {
    if a.WriteWord? {
      var (v, j, slot) := (s.writer.v, s.writer.next, 1 - s.active);
      assert v[..j + 1] == v[..j] + [v[j]];
      assert Next(s, a).slots[slot][..j + 1] == s.slots[slot][..j] + [v[j]];
    } else if a.Flip? {
      assert s.writer.v[..s.writer.next] == s.writer.v;
      assert s.slots[1 - s.active][..s.writer.next] == s.slots[1 - s.active];
    }
  }

  function Step(s: State, a: Action): (r: State)
    requires Shape(s)
    ensures Shape(r)
  {
    if Possible(s, a) then Next(s, a) else s
  }

  function Run(s: State, actions: seq<Action>): (r: State)
    requires Shape(s)
    ensures Shape(r)
    decreases |actions|
  {
    if |actions| == 0 then s else Run(Step(s, actions[0]), actions[1..])
  }

  lemma {:induction false} RunKeepsInv(s: State, actions: seq<Action>)
    requires Inv(s)
    ensures Inv(Run(s, actions))
    decreases |actions|
  {
    if |actions| != 0 {
      if Possible(s, actions[0]) {
        NextKeepsInv(s, actions[0]);
      }
      RunKeepsInv(Step(s, actions[0]), actions[1..]);
    }
  }

  /**
   However the cycle interrupts a hand-over: a read copies the last complete value, never a mixture;
   the loop works with a complete set of gains; and once a hand-over is finished, the next cycle
   leaves the loop with exactly these gains.
   */
  lemma GainsAreWhole(s: State, actions: seq<Action>)
    requires Initial(s)
    ensures var e := Run(s, actions);
            && e.slots[e.active] == e.published[|e.published| - 1]
            && (e.applied.FromMailbox? ==>
                  e.applied.newest < |e.published| && e.applied.copy == e.published[e.applied.newest])
    ensures var e := Run(s, actions);
            var c := Next(e, ControlCycle);
            e.writer.WriterIdle? && |e.published| > 1 ==>
              !c.pending && c.applied == FromMailbox(e.published[|e.published| - 1], |e.published| - 1)
  {
    RunKeepsInv(s, actions);
    NextKeepsInv(Run(s, actions), ControlCycle);
  }

  // ----- Without interruption ------------------------------------------------------------------

  function Repeat(a: Action, n: nat): (r: seq<Action>) { if n == 0 then [] else [a] + Repeat(a, n - 1) }

  lemma {:induction false} RunSplits(s: State, first: seq<Action>, second: seq<Action>)
    requires Shape(s)
    ensures Run(s, first + second) == Run(Run(s, first), second)
    decreases |first|
  {
    if |first| == 0 {
      assert first + second == second;
    } else {
      assert (first + second)[0] == first[0] && (first + second)[1..] == first[1..] + second;
      RunSplits(Step(s, first[0]), first[1..], second);
    }
  }

  lemma OneAction(s: State, a: Action)
    requires Shape(s)
    ensures Run(s, [a]) == Step(s, a)
  {
    assert [a][1..] == [];
  }

  lemma {:induction false} WordsAreWritten(s: State, n: nat)
    requires Shape(s) && s.writer.Copying? && s.writer.next + n == |s.writer.v|
    requires s.slots[1 - s.active][..s.writer.next] == s.writer.v[..s.writer.next]
    ensures Run(s, Repeat(WriteWord, n))
         == s.(slots := s.slots[1 - s.active := s.writer.v], writer := Copying(s.writer.v, |s.writer.v|))
    decreases n
  {
    var (v, j, slot) := (s.writer.v, s.writer.next, 1 - s.active);
    if n == 0 {
      assert s.slots[slot] == s.slots[slot][..j] == v[..j] == v;
    } else {
      var r := Next(s, WriteWord);
      assert r.slots[slot][..j + 1] == s.slots[slot][..j] + [v[j]] == v[..j + 1];
      assert Repeat(WriteWord, n)[1..] == Repeat(WriteWord, n - 1);
      WordsAreWritten(r, n - 1);
      assert r.slots[slot := v] == s.slots[slot := v];
    }
  }

  lemma FlipThenFlag(s: State)
    requires Shape(s) && s.writer.Copying? && s.writer.next == |s.writer.v|
    ensures Run(s, [Flip] + [RaiseFlag])
         == s.(active := 1 - s.active, pending := true, writer := WriterIdle, published := s.published + [s.writer.v])
  {
    RunSplits(s, [Flip], [RaiseFlag]);
    OneAction(s, Flip);
    OneAction(Step(s, Flip), RaiseFlag);
  }

  lemma WordsThenEnd(s: State, v: Words)
    requires Shape(s) && s.writer == Copying(v, 0)
    ensures Run(s, Repeat(WriteWord, |v|) + ([Flip] + [RaiseFlag]))
         == s.(slots := s.slots[1 - s.active := v], active := 1 - s.active, pending := true, writer := WriterIdle,
               published := s.published + [v])
  {
    RunSplits(s, Repeat(WriteWord, |v|), [Flip] + [RaiseFlag]);
    WordsAreWritten(s, |v|);
    FlipThenFlag(Run(s, Repeat(WriteWord, |v|)));
  }

  /** The steps of a hand-over in a row. */
  function HandOver(v: Words): (r: seq<Action>) {
    [WriteBegin(v)] + (Repeat(WriteWord, |v|) + ([Flip] + [RaiseFlag]))
  }

  lemma HandOverBegins(s: State, v: Words)
    requires Shape(s)
    ensures Run(s, HandOver(v)) == Run(Step(s, WriteBegin(v)), Repeat(WriteWord, |v|) + ([Flip] + [RaiseFlag]))
  {
    assert HandOver(v)[1..] == Repeat(WriteWord, |v|) + ([Flip] + [RaiseFlag]);
  }

  /** They do what SetCurrentGains() does, and the next cycle works with the new gains. */
  lemma UndisturbedHandOver(s: State, v: Words)
    requires Shape(s) && s.writer.WriterIdle? && |v| == |s.slots[0]|
    ensures var n := Run(s, HandOver(v));
            && n == s.(slots := s.slots[1 - s.active := v], active := 1 - s.active, pending := true,
                       published := s.published + [v])
            && Step(n, ControlCycle).applied == FromMailbox(v, |s.published|)
  {
    HandOverBegins(s, v);
    WordsThenEnd(Step(s, WriteBegin(v)), v);
  }

  /** The mailbox and the gain flag as they run without preemption. */
  class Box {
    const width: nat
    var slots: array2<int>
    var active: nat
    var pending: bool

    predicate Valid()
      reads this
    {
      slots.Length0 == 2 && slots.Length1 == width && active < 2
    }

    /** Contents of a slot. */
    function Slot(n: nat): (w: Words)
      requires Valid() && n < 2
      reads this, slots
      ensures |w| == width
    {
      seq(width, j requires 0 <= j < width && Valid() reads this, slots => slots[n, j])
    }

    constructor (width: nat)
      ensures Valid() && this.width == width && fresh(slots) && !pending
      ensures Slot(active) == seq(width, j => 0)
    {
      this.width := width;
      slots := new int[2, width]((i, j) => 0);
      active, pending := 0, false;
    }

    method Write(v: Words)
      requires Valid() && |v| == width
      modifies slots, `active
      ensures Valid() && active == 1 - old(active)
      ensures Slot(active) == v && Slot(1 - active) == old(Slot(active))
    {
      var next := 1 - active;
      for j := 0 to width
        invariant Valid()
        invariant forall i :: 0 <= i < j ==> slots[next, i] == v[i]
        invariant forall i :: 0 <= i < width ==> slots[active, i] == old(slots[active, i])
        modifies slots
      {
        slots[next, j] := v[j];
      }
      active := next;
    }

    method SetCurrentGains(v: Words)
      requires Valid() && |v| == width
      modifies slots, `active, `pending
      ensures Valid() && pending && Slot(active) == v
    {
      Write(v);
      pending := true;
    }

    /** Start of a control cycle: `taken` gains replace those of the loop. */
    method TakeGains() returns (taken: bool, gains: Words)
      requires Valid()
      modifies `pending
      ensures Valid() && taken == old(pending) && !pending
      ensures taken ==> gains == Slot(active)
    {
      taken, gains := pending, [];
      if pending {
        pending := false;
        for j := 0 to width
          invariant |gains| == j && forall i :: 0 <= i < j ==> gains[i] == slots[active, i]
        {
          gains := gains + [slots[active, j]];
        }
      }
    }
  }
}
