/**
 Duty delivery in runs with overruns: a cycle whose call comes late still delivers whole entries,
 some of them those of the cycle before, and the next cycle is not affected.
 */
module DutyMissed {
  import opened DutyDelivery

  /** No update event comes among the writes of the call; it may come anywhere else, and the call may be late. */
  predicate Unsplit(d: Driver, c: Cycle) { WellTimed(d, c) && c.s.DuringWrites() == 0 }

  /** The plan that the motor gets when the call comes after `n` update events and finds the slots `held`. */
  function Effective(held: TickPlan, plan: TickPlan, n: nat): (e: TickPlan)
    ensures e[3] == plan[3] && (n <= 1 ==> e == plan)
  {
    if n <= 1 then plan
    else if n == 2 then [held[0], held[1], plan[2], plan[3]]
    else [held[0], held[1], held[2], plan[3]]
  }

  /** The slots that a call after `n` update events leaves. */
  function SlotsLeft(held: TickPlan, plan: TickPlan, n: nat): (s: TickPlan) {
    [if n == 0 then plan[0] else if n == 1 then plan[3] else held[0], plan[1], plan[2], plan[3]]
  }

  /** The timer sees an unsplit call as one write. */
  lemma UnsplitTimer(d: Driver, c: Cycle)
    requires Ready(d) && Unsplit(d, c)
    ensures var (r, n) := (Call(d, c.plan, c.s), c.s.beforeCall);
            r.hw == Updates(SetDuty(Tick(d, n), c.plan).hw, HALF_PERIODS - n) && r.lastEntry == c.plan[3]
  {
    var (plan, s) := (c.plan, c.s);
    var atStart := Tick(d, s.beforeCall);
    UpdatesAdvance(d.hw, s.beforeCall);
    var remaining := atStart.hw.Cndtr();
    assert Tick(atStart, s.beforeDirection) == atStart;
    UnsplitWrites(atStart, plan, s.beforeWrites);
    var written := atStart.(hw := SetDuty(atStart, plan).hw);
    ExecRest(written, plan, remaining, atStart.hw.down, s.beforeRest);
    UpdatesAdd(written.hw, Sum(s.beforeRest), s.after);
  }

  lemma TwoUpdates(h: Timer)
    ensures Updates(h, 2) == Update(Update(h))
  {
    assert Updates(h, 2) == Updates(Update(h), 1);
  }

  lemma {:induction false} UpdatesKeepSlots(h: Timer, n: nat)
    ensures Updates(h, n).slots == h.slots
    decreases n
  {
    if n != 0 {
      UpdatesKeepSlots(Update(h), n - 1);
    }
  }

  /** The timer `h` that a call after `n` update events leads to, in a cycle that found `d`. */
  predicate CycleDone(d: Driver, plan: TickPlan, n: nat, h: Timer) {
    && h.next == 0 && h.preload == plan[3] && h.down == d.hw.down
    && h.slots == SlotsLeft(d.hw.slots, plan, n)
    && h.log == d.hw.log + SimCycle(d.lastEntry, Effective(d.hw.slots, plan, n), !d.hw.down)
  }

  lemma InTimeCycle(d: Driver, plan: TickPlan, n: nat)
    requires Ready(d) && n <= 1
    ensures CycleDone(d, plan, n, Updates(SetDuty(Tick(d, n), plan).hw, HALF_PERIODS - n))
  {
    TimerCycle(d, plan, n);
    FourUpdates(d.hw);
    UpdatesKeepSlots(SetDuty(Tick(d, n), plan).hw, HALF_PERIODS - n);
  }

  lemma CycleLateByOne(d: Driver, plan: TickPlan)
    requires Ready(d)
    ensures CycleDone(d, plan, 2, Updates(SetDuty(Tick(d, 2), plan).hw, 2))
  {
    TwoUpdates(d.hw);
    var h := SetDuty(Tick(d, 2), plan).hw;
    TwoUpdates(h);
    assert h == Update(Update(d.hw)).(slots := [d.hw.slots[0], plan[1], plan[2], plan[3]]);
  }

  lemma CycleLateByTwo(d: Driver, plan: TickPlan)
    requires Ready(d)
    ensures CycleDone(d, plan, 3, Updates(SetDuty(Tick(d, 3), plan).hw, 1))
  {
    FourUpdates(d.hw);
    var h := SetDuty(Tick(d, 3), plan).hw;
    FourUpdates(h);
    assert h == Update(Update(Update(d.hw))).(slots := [d.hw.slots[0], plan[1], plan[2], plan[3]]);
  }

  /**
   One cycle, in time or late: the motor gets what the simulator applies for the effective plan, and
   the next cycle starts as if nothing had happened.
   */
  lemma UnsplitCycle(d: Driver, c: Cycle)
    requires Ready(d) && Unsplit(d, c)
    ensures var (r, n) := (Call(d, c.plan, c.s), c.s.beforeCall);
            && Ready(r) && r.hw.down == d.hw.down && r.lastEntry == c.plan[3]
            && r.hw.slots == SlotsLeft(d.hw.slots, c.plan, n)
            && r.hw.log == d.hw.log + SimCycle(d.lastEntry, Effective(d.hw.slots, c.plan, n), !d.hw.down)
  {
    UnsplitTimer(d, c);
    if c.s.beforeCall <= 1 {
      InTimeCycle(d, c.plan, c.s.beforeCall);
    } else if c.s.beforeCall == 2 {
      CycleLateByOne(d, c.plan);
    } else {
      CycleLateByTwo(d, c.plan);
    }
  }

  // ----- Whole runs -------------------------------------------------------------------------------

  predicate AllUnsplit(d: Driver, cycles: seq<Cycle>)
    requires AllWellTimed(d, cycles)
    decreases |cycles|
  {
    |cycles| == 0
    || (Unsplit(d, cycles[0]) && AllUnsplit(Call(d, cycles[0].plan, cycles[0].s), cycles[1..]))
  }

  /** The same cycles with the plans that the motor gets; `held` are the slots before them. */
  function EffectiveCycles(held: TickPlan, cycles: seq<Cycle>): (e: seq<Cycle>)
    ensures |e| == |cycles|
    decreases |cycles|
  {
    if |cycles| == 0 then []
    else
      var (c, n) := (cycles[0], cycles[0].s.beforeCall);
      [c.(plan := Effective(held, c.plan, n))] + EffectiveCycles(SlotsLeft(held, c.plan, n), cycles[1..])
  }

  /** Over every run, with any number of late calls, the motor gets what is simulated for the effective plans. */
  lemma {:induction false} LateRunRefinesSimulator(d: Driver, cycles: seq<Cycle>)
    requires Ready(d) && AllWellTimed(d, cycles) && AllUnsplit(d, cycles)
    ensures Run(d, cycles).hw.log == d.hw.log + SimRun(d.lastEntry, EffectiveCycles(d.hw.slots, cycles), !d.hw.down)
    ensures Ready(Run(d, cycles))
    decreases |cycles|
  {
    if |cycles| != 0 {
      var c := cycles[0];
      var e := EffectiveCycles(d.hw.slots, cycles);
      UnsplitCycle(d, c);
      LateRunRefinesSimulator(Call(d, c.plan, c.s), cycles[1..]);
      assert e[1..] == EffectiveCycles(SlotsLeft(d.hw.slots, c.plan, c.s.beforeCall), cycles[1..]);
      ConcatAssociates(d.hw.log, SimCycle(d.lastEntry, e[0].plan, !d.hw.down),
                       SimRun(e[0].plan[3], e[1..], !d.hw.down));
    }
  }

  /**
   A late call behind a cycle in time: behind a normal one the motor repeats the last entry and then the
   old entries 1 and 2 (or the new entry 2), behind an early one it repeats the old plan from entry 0.
   */
  lemma LateCallRepeats(d: Driver, before: Cycle, late: Cycle)
    requires Ready(d) && Unsplit(d, before) && before.s.beforeCall <= 1
    requires var m := Call(d, before.plan, before.s);
             Unsplit(m, late) && late.s.beforeCall >= 2
    ensures var (m, q) := (Call(d, before.plan, before.s), before.plan);
            var third := if late.s.beforeCall == 2 then late.plan[2] else q[2];
            var got := [q[3], if before.s.beforeCall == 0 then q[0] else q[3], q[1], third];
            Call(m, late.plan, late.s).hw.log == m.hw.log + SimCycle(got[0], got[1..] + [late.plan[3]], !d.hw.down)
  {
    UnsplitCycle(d, before);
    UnsplitCycle(Call(d, before.plan, before.s), late);
    var (q, n) := (before.plan, late.s.beforeCall);
    var e := Effective(SlotsLeft(d.hw.slots, q, before.s.beforeCall), late.plan, n);
    assert e == [if before.s.beforeCall == 0 then q[0] else q[3], q[1],
                 if n == 2 then late.plan[2] else q[2], late.plan[3]];
  }
}
