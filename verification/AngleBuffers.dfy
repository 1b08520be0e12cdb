/**
 Angle double buffer between the control cycle and the observer that it preempts.

 A controlled cycle is one step (it has zero latency and nothing preempts it); the observer
 proceeds word by word. A tripped or forced cycle touches none of this state and is not a step.
 The observer may read the words of the finished cycle in any order and any number of times,
 which covers every combination of flux observer, Hall fusion and HFI.
 */
module AngleBuffers {

  type Words = seq<int>

  /** One half: sine and cosine of the sample and output angles; currents, voltage and timestamp. */
  datatype Half = Half(angles: Words, inputs: Words)

  datatype Shared = Shared(buf: seq<Half>, active: nat, observerBuffer: nat, pending: bool, overruns: nat) {
    predicate Valid() {
      |buf| == 2 && active < 2 && observerBuffer < 2 && SameShape(buf[0], buf[1])
    }
  }

  predicate SameShape(a: Half, b: Half) { |a.angles| == |b.angles| && |a.inputs| == |b.inputs| }

  // ----- The control cycle, and an observer update that nothing interrupts -----------------

  /** OnControlCycle(), as far as it concerns the buffers; it reads the angles of `m.buf[m.active]`. */
  function AfterCycle(m: Shared, inputs: Words): (r: Shared)
    requires m.Valid() && |inputs| == |m.buf[0].inputs|
    ensures r.Valid() && SameShape(r.buf[0], m.buf[0])
  {
    m.(overruns := if m.pending then m.overruns + 1 else m.overruns,
       buf := m.buf[m.active := m.buf[m.active].(inputs := inputs)],
       observerBuffer := m.active,
       pending := true)
  }

  /** RunOnce() that computed the angles `next`. */
  function AfterUpdate(m: Shared, next: Words): (r: Shared)
    requires m.Valid() && |next| == |m.buf[0].angles|
    ensures r.Valid() && SameShape(r.buf[0], m.buf[0])
  {
    if !m.pending then m
    else
      var other := 1 - m.observerBuffer;
      m.(buf := m.buf[other := m.buf[other].(angles := next)], active := other, pending := false)
  }

  // ----- The observer in steps ------------------------------------------------------------

  /** A word that the observer read, and the newest controlled cycle at that moment. */
  datatype Taken = Input(index: nat, value: int, newest: int) | Angle(index: nat, value: int, newest: int)

  datatype Phase = Idle | Started | Working | Writing | Switched

  /**
   `cycle` and `overruns` are the newest cycle and the overrun counter when the update started,
   `fin` the half it works on, `next` the angles it computed, of which `written` words are stored.
   */
  datatype Observer = Observer(phase: Phase, cycle: int, overruns: nat, fin: nat, taken: seq<Taken>,
                               next: Words, written: nat)

  /** A completed update; `late` says that the overrun counter grew while it ran. */
  datatype Update = Update(cycle: int, late: bool, taken: seq<Taken>)

  /** A controlled cycle: its inputs, the angles it read, and the newest complete set at that moment. */
  datatype Cycle = Cycle(inputs: Words, angles: Words, newestSet: int)

  /** `sets` lists the completed angle sets, that of Init() first. */
  datatype State = State(m: Shared, observer: Observer, sets: seq<Words>, cycles: seq<Cycle>, updates: seq<Update>)

  datatype Action =
    | Control(inputs: Words)
    | Check
    | LoadBuffer
    | TakeInput(index: nat)
    | TakeAngle(index: nat)
    | Compute(next: Words)
    | WriteWord
    | Flip
    | ClearPending

  predicate Valid(s: State) {
    s.m.Valid() && s.observer.fin < 2
  }

  predicate Possible(s: State, a: Action)
    requires Valid(s)
  {
    var o := s.observer;
    match a
    case Control(inputs) => |inputs| == |s.m.buf[0].inputs|
    case Check => o.phase.Idle?
    case LoadBuffer => o.phase.Started?
    case TakeInput(index) => o.phase.Working? && index < |s.m.buf[0].inputs|
    case TakeAngle(index) => o.phase.Working? && index < |s.m.buf[0].angles|
    case Compute(next) => o.phase.Working? && |next| == |s.m.buf[0].angles|
    case WriteWord => o.phase.Writing? && o.written < |o.next| == |s.m.buf[0].angles|
    case Flip => o.phase.Writing? && o.written == |o.next|
    case ClearPending => o.phase.Switched?
  }

  function Taking(s: State, t: Taken): (n: State) {
    s.(observer := s.observer.(taken := s.observer.taken + [t]))
  }

  function WordWritten(s: State): (n: State)
    requires Valid(s) && Possible(s, WriteWord)
  {
    var (j, other) := (s.observer.written, 1 - s.observer.fin);
    var half := s.m.buf[other];
    s.(m := s.m.(buf := s.m.buf[other := half.(angles := half.angles[j := s.observer.next[j]])]),
       observer := s.observer.(written := j + 1))
  }

  function Next(s: State, a: Action): (r: State)
    requires Valid(s) && Possible(s, a)
    ensures Valid(r)
  {
    var o := s.observer;
    match a
    case Control(inputs) =>
      s.(m := AfterCycle(s.m, inputs),
         cycles := s.cycles + [Cycle(inputs, s.m.buf[s.m.active].angles, |s.sets| - 1)])
    case Check =>
      if s.m.pending then
        s.(observer := o.(phase := Started, cycle := |s.cycles| - 1, overruns := s.m.overruns, taken := []))
      else s
    case LoadBuffer => s.(observer := o.(phase := Working, fin := s.m.observerBuffer))
    case TakeInput(index) => Taking(s, Input(index, s.m.buf[o.fin].inputs[index], |s.cycles| - 1))
    case TakeAngle(index) => Taking(s, Angle(index, s.m.buf[o.fin].angles[index], |s.cycles| - 1))
    case Compute(next) => s.(observer := o.(phase := Writing, next := next, written := 0))
    case WriteWord => WordWritten(s)
    case Flip =>
      s.(m := s.m.(active := 1 - o.fin), sets := s.sets + [o.next], observer := o.(phase := Switched))
    case ClearPending =>
      s.(m := s.m.(pending := false), observer := o.(phase := Idle),
         updates := s.updates + [Update(o.cycle, s.m.overruns != o.overruns, o.taken)])
  }

  predicate Initial(s: State) {
    && Valid(s) && s.m.buf[0] == s.m.buf[1] && s.m.active == 0 && !s.m.pending && s.m.overruns == 0
    && s.observer.phase.Idle? && s.sets == [s.m.buf[0].angles] && s.cycles == [] && s.updates == []
  }

  // ----- What every step keeps --------------------------------------------------------------

  /** The active half holds the newest complete set; every cycle read the newest set of its time. */
  predicate SetsInv(s: State) {
    && Valid(s) && |s.sets| > 0
    && s.m.buf[s.m.active].angles == s.sets[|s.sets| - 1]
    && (forall c :: 0 <= c < |s.cycles| ==> ReadsASet(s, s.cycles[c]))
  }

  predicate ReadsASet(s: State, c: Cycle) {
    0 <= c.newestSet < |s.sets| && c.angles == s.sets[c.newestSet]
  }

  /** Until the observer switches, its half, the half of the cycle and the active half are one. */
  predicate ObserverInv(s: State)
    requires Valid(s)
  {
    var o := s.observer;
    && (s.m.pending ==> |s.cycles| > 0)
    && (o.phase.Idle? ==> s.m.pending ==> s.m.observerBuffer == s.m.active && HoldsNewestCycle(s))
    && (!o.phase.Idle? ==>
          && s.m.pending && 0 <= o.cycle < |s.cycles| && o.overruns <= s.m.overruns
          && |s.cycles| - 1 == o.cycle + (s.m.overruns - o.overruns))
    && (o.phase.Started? || o.phase.Working? || o.phase.Writing? ==>
          s.m.observerBuffer == s.m.active && HoldsNewestCycle(s))
    && (o.phase.Working? || o.phase.Writing? ==> o.fin == s.m.active)
    && (o.phase.Writing? ==>
          && o.written <= |o.next| == |s.m.buf[0].angles|
          && s.m.buf[1 - o.fin].angles[..o.written] == o.next[..o.written])
    && (o.phase.Switched? ==> s.m.active == 1 - o.fin)
  }

  predicate HoldsNewestCycle(s: State)
    requires Valid(s) && |s.cycles| > 0
  {
    var c := s.cycles[|s.cycles| - 1];
    var half := s.m.buf[s.m.observerBuffer];
    c.inputs == half.inputs && c.angles == half.angles
  }

  /** Every word comes from the newest cycle at the moment it was read, at or after the cycle of the update. */
  predicate TakenFrom(cycles: seq<Cycle>, cycle: int, t: Taken) {
    && 0 <= cycle <= t.newest < |cycles|
    && match t
       case Input(index, value, newest) => index < |cycles[newest].inputs| && value == cycles[newest].inputs[index]
       case Angle(index, value, newest) => index < |cycles[newest].angles| && value == cycles[newest].angles[index]
  }

  predicate AllTakenFrom(cycles: seq<Cycle>, cycle: int, taken: seq<Taken>) {
    forall i :: 0 <= i < |taken| ==> TakenFrom(cycles, cycle, taken[i])
  }

  /** Unless the update was late, all its words come from its one cycle. */
  predicate UpdateInv(cycles: seq<Cycle>, u: Update) {
    && AllTakenFrom(cycles, u.cycle, u.taken)
    && (!u.late ==> forall i :: 0 <= i < |u.taken| ==> u.taken[i].newest == u.cycle)
  }

  predicate TakenInv(s: State) {
    && (s.observer.phase.Idle? || AllTakenFrom(s.cycles, s.observer.cycle, s.observer.taken))
    && (forall i :: 0 <= i < |s.updates| ==> UpdateInv(s.cycles, s.updates[i]))
  }

  /** Every controlled cycle was processed, was counted as an overrun, or is still pending. */
  predicate CountInv(s: State) {
    |s.cycles| == |s.updates| + s.m.overruns + (if s.m.pending then 1 else 0)
  }

  predicate Inv(s: State) {
    SetsInv(s) && ObserverInv(s) && TakenInv(s) && CountInv(s)
  }

  lemma CycleKeepsTaken(s: State, c: Cycle)
    requires TakenInv(s)
    ensures TakenInv(s.(cycles := s.cycles + [c]))
  {
    var cycles := s.cycles + [c];
    forall i | 0 <= i < |s.updates|
      ensures UpdateInv(cycles, s.updates[i])
    {
      assert UpdateInv(s.cycles, s.updates[i]);
      MoreCycles(s.cycles, c, s.updates[i].cycle, s.updates[i].taken);
    }
    if !s.observer.phase.Idle? {
      MoreCycles(s.cycles, c, s.observer.cycle, s.observer.taken);
    }
  }

  lemma MoreCycles(cycles: seq<Cycle>, c: Cycle, cycle: int, taken: seq<Taken>)
    requires AllTakenFrom(cycles, cycle, taken)
    ensures AllTakenFrom(cycles + [c], cycle, taken)
  {
    forall i | 0 <= i < |taken|
      ensures TakenFrom(cycles + [c], cycle, taken[i])
    {
      assert TakenFrom(cycles, cycle, taken[i]);
      assert (cycles + [c])[taken[i].newest] == cycles[taken[i].newest];
    }
  }

  lemma ControlKeepsInv(s: State, inputs: Words)
    requires Inv(s) && Possible(s, Control(inputs))
    ensures Inv(Next(s, Control(inputs)))
  {
    var n := Next(s, Control(inputs));
    var c := n.cycles[|s.cycles|];
    CycleKeepsTaken(s, c);
    assert TakenInv(n);
    forall k | 0 <= k < |n.cycles|
      ensures ReadsASet(n, n.cycles[k])
    {
      assert k < |s.cycles| ==> ReadsASet(s, s.cycles[k]);
    }
  }

  lemma TakeKeepsInv(s: State, a: Action)
    requires Inv(s) && Possible(s, a) && (a.TakeInput? || a.TakeAngle?)
    ensures Inv(Next(s, a))
  {
    var n := Next(s, a);
    var t := n.observer.taken[|s.observer.taken|];
    assert TakenFrom(n.cycles, n.observer.cycle, t);
    SameSets(s, n);
  }

  lemma SameSets(s: State, n: State)
    requires SetsInv(s) && n.sets == s.sets && n.cycles == s.cycles
    ensures forall k :: 0 <= k < |n.cycles| ==> ReadsASet(n, n.cycles[k])
  {
    forall k | 0 <= k < |n.cycles|
      ensures ReadsASet(n, n.cycles[k])
    {
      assert ReadsASet(s, s.cycles[k]);
    }
  }

  lemma WriteKeepsInv(s: State)
    requires Inv(s) && Possible(s, WriteWord)
    ensures Inv(Next(s, WriteWord))
  {
    var n := Next(s, WriteWord);
    var (j, next, other) := (s.observer.written, s.observer.next, 1 - s.observer.fin);
    assert next[..j + 1] == next[..j] + [next[j]];
    assert n.m.buf[other].angles[..j + 1] == s.m.buf[other].angles[..j] + [next[j]];
    SameSets(s, n);
  }

  lemma FlipKeepsInv(s: State)
    requires Inv(s) && Possible(s, Flip)
    ensures Inv(Next(s, Flip))
  {
    var n := Next(s, Flip);
    var next := s.observer.next;
    assert next[..|next|] == next && s.m.buf[1 - s.observer.fin].angles[..|next|] == s.m.buf[1 - s.observer.fin].angles;
    forall k | 0 <= k < |n.cycles|
      ensures ReadsASet(n, n.cycles[k])
    {
      assert ReadsASet(s, s.cycles[k]);
    }
  }

  lemma ClearKeepsInv(s: State)
    requires Inv(s) && Possible(s, ClearPending)
    ensures Inv(Next(s, ClearPending))
  {
    var n := Next(s, ClearPending);
    var u := n.updates[|s.updates|];
    forall i | 0 <= i < |u.taken|
      ensures !u.late ==> u.taken[i].newest == u.cycle
    {
      assert TakenFrom(s.cycles, u.cycle, u.taken[i]);
    }
    assert UpdateInv(n.cycles, u);
    SameSets(s, n);
  }

  lemma StartKeepsInv(s: State, a: Action)
    requires Inv(s) && Possible(s, a) && (a.Check? || a.LoadBuffer? || a.Compute?)
    ensures Inv(Next(s, a))
  {
    SameSets(s, Next(s, a));
    if a.Compute? {
      assert a.next[..0] == [];
    }
  }

  lemma NextKeepsInv(s: State, a: Action)
    requires Inv(s) && Possible(s, a)
    ensures Inv(Next(s, a))
  {
    match a
    case Control(inputs) => ControlKeepsInv(s, inputs);
    case Check => StartKeepsInv(s, a);
    case LoadBuffer => StartKeepsInv(s, a);
    case TakeInput(_) => TakeKeepsInv(s, a);
    case TakeAngle(_) => TakeKeepsInv(s, a);
    case Compute(_) => StartKeepsInv(s, a);
    case WriteWord => WriteKeepsInv(s);
    case Flip => FlipKeepsInv(s);
    case ClearPending => ClearKeepsInv(s);
  }

  // ----- Whole runs -----------------------------------------------------------------------------

  function Step(s: State, a: Action): (r: State)
    requires Valid(s)
    ensures Valid(r)
  {
    if Possible(s, a) then Next(s, a) else s
  }

  function Run(s: State, actions: seq<Action>): (r: State)
    requires Valid(s)
    ensures Valid(r)
    decreases |actions|
  {
    if |actions| == 0 then s else Run(Step(s, actions[0]), actions[1..])
  }

  lemma {:induction false} RunKeepsInv(s: State, actions: seq<Action>)
    requires Inv(s)
    ensures Inv(Run(s, actions))
    decreases |actions|
  {
    if |actions| != 0 {
      if Possible(s, actions[0]) {
        NextKeepsInv(s, actions[0]);
      }
      RunKeepsInv(Step(s, actions[0]), actions[1..]);
    }
  }

  /** Each control cycle reads exactly one set that one whole update (or Init()) completed, the newest one. */
  lemma CycleReadsOneCompleteSet(s: State, actions: seq<Action>, inputs: Words)
    requires Initial(s) && Possible(Run(s, actions), Control(inputs))
    ensures var e := Run(s, actions);
            var c := Next(e, Control(inputs)).cycles[|e.cycles|];
            |e.sets| > 0 && c.angles == e.sets[|e.sets| - 1] && c.newestSet == |e.sets| - 1
    ensures forall k :: 0 <= k < |Run(s, actions).cycles| ==> ReadsASet(Run(s, actions), Run(s, actions).cycles[k])
  {
    RunKeepsInv(s, actions);
  }

  /** An observer that starts on a pending cycle works on the half which the next cycle uses too. */
  lemma ObserverStartsOnActiveHalf(s: State, actions: seq<Action>)
    requires Initial(s)
    ensures var e := Run(s, actions);
            e.observer.phase.Idle? && e.m.pending ==>
              e.m.observerBuffer == e.m.active && |e.cycles| > 0 && HoldsNewestCycle(e)
  {
    RunKeepsInv(s, actions);
  }

  /**
   All words that an update read (currents, voltage, timestamp and angles) belong to the one cycle
   that it started for, unless the overrun counter grew meanwhile; then they belong to this or a later one.
   */
  lemma UpdateReadsOneCycle(s: State, actions: seq<Action>, i: nat)
    requires Initial(s) && i < |Run(s, actions).updates|
    ensures var e := Run(s, actions);
            var u := e.updates[i];
            && (forall k :: 0 <= k < |u.taken| ==> TakenFrom(e.cycles, u.cycle, u.taken[k]))
            && (!u.late ==> forall k :: 0 <= k < |u.taken| ==> u.taken[k].newest == u.cycle)
  {
    RunKeepsInv(s, actions);
    assert UpdateInv(Run(s, actions).cycles, Run(s, actions).updates[i]);
  }

  /** No controlled cycle is lost unnoticed. */
  lemma CyclesAreAccountedFor(s: State, actions: seq<Action>)
    requires Initial(s)
    ensures var e := Run(s, actions);
            |e.cycles| == |e.updates| + e.m.overruns + (if e.m.pending then 1 else 0)
  {
    RunKeepsInv(s, actions);
  }

  // ----- The steps of an update that nothing interrupts ----------------------------------------

  function WriteWords(n: nat): (r: seq<Action>) { seq(n, i => WriteWord) }

  /** The shared state when the observer is done with half `fin`. */
  function Finished(m: Shared, fin: nat, next: Words): (n: Shared)
    requires m.Valid() && fin < 2
  {
    m.(buf := m.buf[1 - fin := m.buf[1 - fin].(angles := next)], active := 1 - fin, pending := false)
  }

  lemma SwitchAndClear(s: State)
    requires Valid(s) && Possible(s, Flip)
    requires s.m.buf[1 - s.observer.fin].angles == s.observer.next
    ensures var e := Run(s, [Flip, ClearPending]);
            e.m == Finished(s.m, s.observer.fin, s.observer.next) && e.observer.phase.Idle?
  {
    var n := Next(s, Flip);
    assert [Flip, ClearPending][1..] == [ClearPending];
    assert Run(s, [Flip, ClearPending]) == Run(n, [ClearPending]) == Next(n, ClearPending);
    var other := 1 - s.observer.fin;
    assert s.m.buf[other := s.m.buf[other].(angles := s.observer.next)] == s.m.buf;
  }

  lemma {:induction false} WritingAll(s: State)
    requires Valid(s) && s.observer.phase.Writing? && s.observer.written <= |s.observer.next| == |s.m.buf[0].angles|
    requires s.m.buf[1 - s.observer.fin].angles[..s.observer.written] == s.observer.next[..s.observer.written]
    ensures var e := Run(s, WriteWords(|s.observer.next| - s.observer.written) + [Flip, ClearPending]);
            e.m == Finished(s.m, s.observer.fin, s.observer.next) && e.observer.phase.Idle?
    decreases |s.observer.next| - s.observer.written
  {
    var o := s.observer;
    var rest := |o.next| - o.written;
    var other := 1 - o.fin;
    var actions := WriteWords(rest) + [Flip, ClearPending];
    if rest == 0 {
      assert o.next[..o.written] == o.next;
      assert s.m.buf[other].angles[..o.written] == s.m.buf[other].angles;
      assert actions == [Flip, ClearPending];
      SwitchAndClear(s);
    } else {
      var n := WordWritten(s);
      assert actions[0] == WriteWord && actions[1..] == WriteWords(rest - 1) + [Flip, ClearPending];
      assert Run(s, actions) == Run(n, actions[1..]);
      OneMoreWord(s);
      WritingAll(n);
    }
  }

  /** One more word is as intended, and the half that will be finished is the same. */
  lemma OneMoreWord(s: State)
    requires Valid(s) && Possible(s, WriteWord)
    requires s.m.buf[1 - s.observer.fin].angles[..s.observer.written] == s.observer.next[..s.observer.written]
    ensures var (o, n) := (s.observer, WordWritten(s));
            && n.m.buf[1 - o.fin].angles[..o.written + 1] == o.next[..o.written + 1]
            && Finished(n.m, o.fin, o.next) == Finished(s.m, o.fin, o.next)
  {
    var (o, n, other) := (s.observer, WordWritten(s), 1 - s.observer.fin);
    assert o.next[..o.written + 1] == o.next[..o.written] + [o.next[o.written]];
    assert n.m.buf[other].angles[..o.written + 1] == s.m.buf[other].angles[..o.written] + [o.next[o.written]];
    assert s.m.buf[other := s.m.buf[other].(angles := o.next)] == n.m.buf[other := n.m.buf[other].(angles := o.next)];
  }

  /** The state when the observer is about to write its new angles. */
  function Computed(s: State, next: Words): (r: State)
    requires Valid(s) && s.observer.phase.Idle? && s.m.pending && |next| == |s.m.buf[0].angles|
    ensures Valid(r)
  {
    Next(Next(Next(s, Check), LoadBuffer), Compute(next))
  }

  lemma FirstThree(s: State, next: Words, rest: seq<Action>)
    requires Valid(s) && s.observer.phase.Idle? && s.m.pending && |next| == |s.m.buf[0].angles|
    ensures Run(s, [Check, LoadBuffer, Compute(next)] + rest) == Run(Computed(s, next), rest)
  {
    var actions := [Check, LoadBuffer, Compute(next)] + rest;
    assert actions[1..] == [LoadBuffer, Compute(next)] + rest;
    assert actions[1..][1..] == [Compute(next)] + rest;
    assert actions[1..][1..][1..] == rest;
    var s1 := Next(s, Check);
    var s2 := Next(s1, LoadBuffer);
    assert Run(s, actions) == Run(s1, actions[1..]) == Run(s2, actions[1..][1..]);
    assert Run(s2, actions[1..][1..]) == Run(Next(s2, Compute(next)), rest);
  }

  /** The observer steps in a row do to the shared state what AfterUpdate() says. */
  lemma UninterruptedUpdate(s: State, next: Words)
    requires Valid(s) && s.observer.phase.Idle? && s.m.pending && |next| == |s.m.buf[0].angles|
    ensures var e := Run(s, [Check, LoadBuffer, Compute(next)] + (WriteWords(|next|) + [Flip, ClearPending]));
            e.m == AfterUpdate(s.m, next) && e.observer.phase.Idle?
  {
    FirstThree(s, next, WriteWords(|next|) + [Flip, ClearPending]);
    assert next[..0] == [];
    WritingAll(Computed(s, next));
  }

  // ----- The same on arrays --------------------------------------------------------------------

  class DoubleBuffer {
    const angleWords: nat
    const inputWords: nat
    var angles: array2<int>
    var inputs: array2<int>
    var active: nat
    var observerBuffer: nat
    var pending: bool
    var overruns: nat

    predicate Shaped()
      reads this
    {
      && angles.Length0 == inputs.Length0 == 2 && angles.Length1 == angleWords && inputs.Length1 == inputWords
      && active < 2 && observerBuffer < 2 && angles != inputs
    }

    function HalfOf(n: nat): (h: Half)
      requires Shaped() && n < 2
      reads this, angles, inputs
      ensures |h.angles| == angleWords && |h.inputs| == inputWords
    {
      Half(seq(angleWords, j requires 0 <= j < angleWords && Shaped() reads this, angles => angles[n, j]),
           seq(inputWords, j requires 0 <= j < inputWords && Shaped() reads this, inputs => inputs[n, j]))
    }

    function Memory(): (m: Shared)
      requires Shaped()
      reads this, angles, inputs
      ensures m.Valid() && |m.buf[0].angles| == angleWords && |m.buf[0].inputs| == inputWords
    {
      Shared([HalfOf(0), HalfOf(1)], active, observerBuffer, pending, overruns)
    }

    constructor (angleWords: nat, inputWords: nat, zero: int)
      ensures Shaped() && fresh(angles) && fresh(inputs)
      ensures this.angleWords == angleWords && this.inputWords == inputWords
      ensures active == 0 && !pending && overruns == 0
      ensures HalfOf(0) == HalfOf(1) == Half(seq(angleWords, i => zero), seq(inputWords, i => 0))
    {
      this.angleWords, this.inputWords := angleWords, inputWords;
      angles := new int[2, angleWords]((n, j) => zero);
      inputs := new int[2, inputWords]((n, j) => 0);
      active, observerBuffer, pending, overruns := 0, 0, false, 0;
    }

    /** OnControlCycle() of a controlled cycle: returns the angles it works with. */
    method ControlCycle(samples: Words) returns (used: Words)
      requires Shaped() && |samples| == inputWords
      modifies inputs, `observerBuffer, `pending, `overruns
      ensures Shaped() && Memory() == AfterCycle(old(Memory()), samples)
      ensures used == old(Memory()).buf[active].angles
    {
      if pending {
        overruns := overruns + 1;
      }
      used := [];
      for j := 0 to angleWords
        invariant |used| == j && forall i :: 0 <= i < j ==> used[i] == angles[active, i]
      {
        used := used + [angles[active, j]];
      }
      var other := 1 - active;
      for j := 0 to inputWords
        invariant Shaped()
        invariant forall i :: 0 <= i < j ==> inputs[active, i] == samples[i]
        invariant forall i :: 0 <= i < inputWords ==> inputs[other, i] == old(inputs[other, i])
        modifies inputs
      {
        inputs[active, j] := samples[j];
      }
      observerBuffer := active;
      pending := true;
      assert HalfOf(active).inputs == samples && HalfOf(active).angles == old(HalfOf(active)).angles;
      assert HalfOf(1 - active) == old(HalfOf(1 - active));
      assert Memory().buf == [HalfOf(0), HalfOf(1)] && old(Memory()).buf == [old(HalfOf(0)), old(HalfOf(1))];
    }

    /** RunOnce(): `next` are the angles the observer computes for the next cycle. */
    method RunOnce(next: Words) returns (ran: bool)
      requires Shaped() && |next| == angleWords
      modifies angles, `active, `pending
      ensures Shaped() && Memory() == AfterUpdate(old(Memory()), next)
      ensures ran == old(pending) && (!ran ==> Memory() == old(Memory()))
    {
      if !pending {
        return false;
      }
      var other := 1 - observerBuffer;
      for j := 0 to angleWords
        invariant Shaped()
        invariant forall i :: 0 <= i < j ==> angles[other, i] == next[i]
        invariant forall i :: 0 <= i < angleWords ==> angles[observerBuffer, i] == old(angles[observerBuffer, i])
        modifies angles
      {
        angles[other, j] := next[j];
      }
      active := other;
      pending := false;
      assert HalfOf(other).angles == next && HalfOf(other).inputs == old(HalfOf(other)).inputs;
      assert HalfOf(1 - other) == old(HalfOf(1 - other));
      assert Memory().buf == [HalfOf(0), HalfOf(1)] && old(Memory()).buf == [old(HalfOf(0)), old(HalfOf(1))];
      return true;
    }
  }
}
