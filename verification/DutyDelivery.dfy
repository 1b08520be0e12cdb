/**
 Delivery of the duty plans to the PWM timer of the battery case controller.

 A plan has one entry per PWM half period. The timer preloads its compare registers, and a
 circular DMA buffer of four slots refills the preload at every update event (peak or valley).
 SetDutyTicks() spreads a plan over the preload and the slots. The simulator applies the same
 plan in one loop; that loop is the meaning of a plan here, and the register form refines it.

 Update events may come between any two register accesses of SetDutyTicks(), so the call is
 also modelled access by access (`Call`), with the number of events in every gap as a parameter.
 */
module DutyDelivery {

  const HALF_PERIODS: nat := 4  // kHalfPeriodsPerCycle
  const BURST: nat := 3         // kBurstLength: CCR1..CCR3
  const TRANSFERS: nat := 12    // kDmaTransfers

  /** Compare values of CCR1..CCR3 for one half period. */
  datatype PhaseTicks = PhaseTicks(a: nat, b: nat, c: nat)

  type TickPlan = p: seq<PhaseTicks> | |p| == HALF_PERIODS
    witness seq(HALF_PERIODS, i => PhaseTicks(0, 0, 0))

  type SlotIndex = i: nat | i < HALF_PERIODS

  /** A half period as the motor sees it: its compare values and the boundary it ends at. */
  datatype HalfPeriod = HalfPeriod(ticks: PhaseTicks, endsAtPeak: bool)

  /**
   TIM8 and its DMA channel. `next` is the slot of the next burst; `log` lists the half periods
   started so far.
   */
  datatype Timer = Timer(active: PhaseTicks, preload: PhaseTicks, down: bool,
                         next: SlotIndex, slots: TickPlan, log: seq<HalfPeriod>)
  {
    /** CNDTR: transfers left until the circular reload. */
    function Cndtr(): (r: nat) { TRANSFERS - BURST * next }
  }

  /** The timer and the globals of the driver. */
  datatype Driver = Driver(hw: Timer, lastEntry: PhaseTicks, applied: TickPlan,
                           controlAtPeak: bool, overruns: nat)

  // ----- Update events ---------------------------------------------------------

  /** One update event: preload -> active, next slot -> preload, CNDTR counts down and reloads. */
  function Update(h: Timer): (n: Timer) {
    Timer(h.preload, h.slots[h.next], !h.down,
          if h.next == HALF_PERIODS - 1 then 0 else h.next + 1,
          h.slots, h.log + [HalfPeriod(h.preload, h.down)])
  }

  function Updates(h: Timer, n: nat): (r: Timer)
    decreases n
  {
    if n == 0 then h else Updates(Update(h), n - 1)
  }

  lemma {:induction false} UpdatesAdvance(h: Timer, n: nat)
    ensures Updates(h, n).next == (h.next + n) % HALF_PERIODS
    decreases n
  {
    if n != 0 {
      UpdatesAdvance(Update(h), n - 1);
    }
  }

  lemma {:induction false} UpdatesAdd(h: Timer, m: nat, n: nat)
    ensures Updates(Updates(h, m), n) == Updates(h, m + n)
    decreases m
  {
    if m != 0 {
      UpdatesAdd(Update(h), m - 1, n);
    }
  }

  lemma {:induction false} UpdatesLog(h: Timer, n: nat)
    ensures h.log <= Updates(h, n).log && |Updates(h, n).log| == |h.log| + n
    decreases n
  {
    if n != 0 {
      UpdatesLog(Update(h), n - 1);
    }
  }

  // ----- SetDutyTicks() without an update event inside ---------------------------

  /** SetDutyTicks() as one atomic step. */
  function SetDuty(d: Driver, plan: TickPlan): (n: Driver) {
    var remaining := d.hw.Cndtr();
    var slots: TickPlan := [d.hw.slots[0], plan[1], plan[2], plan[3]];
    var applied: TickPlan := [d.lastEntry, plan[0], plan[1], plan[2]];
    if remaining == TRANSFERS - BURST then
      Driver(d.hw.(preload := plan[0], slots := slots[0 := plan[3]]), plan[3], applied, d.hw.down, d.overruns)
    else if remaining == TRANSFERS then
      Driver(d.hw.(slots := slots[0 := plan[0]]), plan[3], applied, !d.hw.down, d.overruns)
    else
      Driver(d.hw.(slots := slots), plan[3], applied, d.controlAtPeak, d.overruns + 1)
  }

  /** SetDutyTicks() with `split` update events in front of the re-check of the normal branch. */
  function SetDutySplit(d: Driver, plan: TickPlan, split: nat): (n: Driver) {
    var r := SetDuty(d, plan);
    if d.hw.Cndtr() == TRANSFERS - BURST then
      r.(hw := Updates(r.hw, split), overruns := r.overruns + if split % HALF_PERIODS == 0 then 0 else 1)
    else r
  }

  function SampleAtPeak(d: Driver, sample: nat): (r: bool)
    requires sample < HALF_PERIODS
  {
    var sameAsControl := (HALF_PERIODS - 1 - sample) % 2 == 0;
    sameAsControl == d.controlAtPeak
  }

  // ----- SetDutyTicks() access by access ------------------------------------------

  datatype Access =
    | WriteSlot(k: SlotIndex, ticks: PhaseTicks)
    | WriteCcr1(a: nat)
    | WriteCcr2(b: nat)
    | WriteCcr3(c: nat)
    | Recheck(remaining: nat)
    | CountOverrun
    | SetControlAtPeak(atPeak: bool)
    | Bookkeeping(plan: TickPlan)

  function Apply(x: Access, d: Driver): (n: Driver) {
    match x
    case WriteSlot(k, ticks) => d.(hw := d.hw.(slots := d.hw.slots[k := ticks]))
    case WriteCcr1(a) => d.(hw := d.hw.(preload := d.hw.preload.(a := a)))
    case WriteCcr2(b) => d.(hw := d.hw.(preload := d.hw.preload.(b := b)))
    case WriteCcr3(c) => d.(hw := d.hw.(preload := d.hw.preload.(c := c)))
    case Recheck(remaining) => if d.hw.Cndtr() != remaining then d.(overruns := d.overruns + 1) else d
    case CountOverrun => d.(overruns := d.overruns + 1)
    case SetControlAtPeak(atPeak) => d.(controlAtPeak := atPeak)
    case Bookkeeping(plan) => d.(applied := [d.lastEntry, plan[0], plan[1], plan[2]], lastEntry := plan[3])
  }

  /** The accesses of the call after CNDTR was read as `remaining`: up to the last slot or register write... */
  function Writes(plan: TickPlan, remaining: nat): (r: seq<Access>) {
    [WriteSlot(1, plan[1]), WriteSlot(2, plan[2]), WriteSlot(3, plan[3])] +
    (if remaining == TRANSFERS - BURST then
       [WriteCcr1(plan[0].a), WriteCcr2(plan[0].b), WriteCcr3(plan[0].c), WriteSlot(0, plan[3])]
     else if remaining == TRANSFERS then [WriteSlot(0, plan[0])]
     else [])
  }

  /** ... and what follows them; `down` is the direction read at the start. */
  function Rest(plan: TickPlan, remaining: nat, down: bool): (r: seq<Access>) {
    (if remaining == TRANSFERS - BURST then [Recheck(remaining), SetControlAtPeak(down)]
     else if remaining == TRANSFERS then [SetControlAtPeak(!down)]
     else [CountOverrun]) + [Bookkeeping(plan)]
  }

  function Tick(d: Driver, n: nat): (r: Driver) { d.(hw := Updates(d.hw, n)) }

  /** Runs the accesses with `gaps[j]` update events in front of access `j`. */
  function Exec(d: Driver, accesses: seq<Access>, gaps: seq<nat>): (n: Driver)
    requires |accesses| == |gaps|
    decreases |accesses|
  {
    if |accesses| == 0 then d
    else Exec(Apply(accesses[0], Tick(d, gaps[0])), accesses[1..], gaps[1..])
  }

  /**
   Where the update events around one call fall: before the CNDTR read, before the direction
   read, before every later access, and after the call.
   */
  datatype Schedule = Schedule(beforeCall: nat, beforeDirection: nat,
                               beforeWrites: seq<nat>, beforeRest: seq<nat>, after: nat)
  {
    predicate Fits(d: Driver, plan: TickPlan) {
      var remaining := Tick(d, beforeCall).hw.Cndtr();
      && |beforeWrites| == |Writes(plan, remaining)|
      && |beforeRest| == |Rest(plan, remaining, false)|
    }

    /** Events between the CNDTR read and the last slot or register write. */
    function DuringWrites(): (r: nat) { beforeDirection + Sum(beforeWrites) }

    function Total(): (r: nat) { beforeCall + DuringWrites() + Sum(beforeRest) + after }
  }

  function Sum(s: seq<nat>): (r: nat) {
    if |s| == 0 then 0 else s[0] + Sum(s[1..])
  }

  /** SetDutyTicks() with the update events of the schedule in its gaps. */
  function Call(d: Driver, plan: TickPlan, s: Schedule): (n: Driver)
    requires s.Fits(d, plan)
  {
    var atStart := Tick(d, s.beforeCall);
    var remaining := atStart.hw.Cndtr();
    var atDirection := Tick(atStart, s.beforeDirection);
    var written := Exec(atDirection, Writes(plan, remaining), s.beforeWrites);
    var done := Exec(written, Rest(plan, remaining, atDirection.hw.down), s.beforeRest);
    Tick(done, s.after)
  }

  // ----- What the call does when updates come in between -----------------------------

  predicate Counts(x: Access) { x.Recheck? || x.CountOverrun? }

  predicate TouchesTimer(x: Access) { x.WriteSlot? || x.WriteCcr1? || x.WriteCcr2? || x.WriteCcr3? }

  /** Positions in the cycle add up. */
  lemma AroundTheCycle(next: nat, m: nat, n: nat)
    ensures ((next + m) % HALF_PERIODS + n) % HALF_PERIODS == (next + (m + n)) % HALF_PERIODS
  {
  }

  lemma AccessKeepsNext(x: Access, d: Driver)
    ensures Apply(x, d).hw.next == d.hw.next
  {
  }

  /** No access moves the DMA: CNDTR counts the update events. */
  lemma {:induction false} ExecAdvances(d: Driver, accesses: seq<Access>, gaps: seq<nat>)
    requires |accesses| == |gaps|
    ensures Exec(d, accesses, gaps).hw.next == (d.hw.next + Sum(gaps)) % HALF_PERIODS
    decreases |accesses|
  {
    if |accesses| != 0 {
      var d1 := Apply(accesses[0], Tick(d, gaps[0]));
      assert d1.hw.next == (d.hw.next + gaps[0]) % HALF_PERIODS by {
        UpdatesAdvance(d.hw, gaps[0]);
        AccessKeepsNext(accesses[0], Tick(d, gaps[0]));
      }
      ExecAdvances(d1, accesses[1..], gaps[1..]);
      AroundTheCycle(d.hw.next, gaps[0], Sum(gaps[1..]));
    }
  }

  /** However the events are spread, accesses that do not count leave the overruns alone. */
  lemma {:induction false} ExecUncounted(d: Driver, accesses: seq<Access>, gaps: seq<nat>)
    requires |accesses| == |gaps|
    requires forall x :: x in accesses ==> !Counts(x)
    ensures Exec(d, accesses, gaps).overruns == d.overruns
    decreases |accesses|
  {
    if |accesses| != 0 {
      assert !Counts(accesses[0]);
      ExecUncounted(Apply(accesses[0], Tick(d, gaps[0])), accesses[1..], gaps[1..]);
    }
  }

  /** Accesses that leave the timer alone commute with the update events. */
  lemma {:induction false} ExecBesideTimer(d: Driver, accesses: seq<Access>, gaps: seq<nat>)
    requires |accesses| == |gaps|
    requires forall x :: x in accesses ==> !TouchesTimer(x)
    ensures Exec(d, accesses, gaps).hw == Updates(d.hw, Sum(gaps))
    decreases |accesses|
  {
    if |accesses| != 0 {
      UpdatesAdd(d.hw, gaps[0], Sum(gaps[1..]));
      assert !TouchesTimer(accesses[0]);
      ExecBesideTimer(Apply(accesses[0], Tick(d, gaps[0])), accesses[1..], gaps[1..]);
    }
  }

  function ApplyAll(d: Driver, accesses: seq<Access>): (n: Driver)
    decreases |accesses|
  {
    if |accesses| == 0 then d else ApplyAll(Apply(accesses[0], d), accesses[1..])
  }

  lemma {:induction false} ExecWithoutEvents(d: Driver, accesses: seq<Access>, gaps: seq<nat>)
    requires |accesses| == |gaps| && Sum(gaps) == 0
    ensures Exec(d, accesses, gaps) == ApplyAll(d, accesses)
    decreases |accesses|
  {
    if |accesses| != 0 {
      assert Tick(d, 0) == d;
      ExecWithoutEvents(Apply(accesses[0], d), accesses[1..], gaps[1..]);
    }
  }

  lemma ExecRest(d: Driver, plan: TickPlan, remaining: nat, down: bool, gaps: seq<nat>)
    requires |gaps| == |Rest(plan, remaining, down)|
    ensures var r := Exec(d, Rest(plan, remaining, down), gaps);
            && r.hw == Updates(d.hw, Sum(gaps))
            && r.lastEntry == plan[3] && r.applied == [d.lastEntry, plan[0], plan[1], plan[2]]
            && (remaining == TRANSFERS - BURST ==>
                  && r.controlAtPeak == down
                  && (r.overruns == d.overruns <==> Tick(d, gaps[0]).hw.Cndtr() == remaining)
                  && d.overruns <= r.overruns <= d.overruns + 1)
            && (remaining == TRANSFERS ==> r.controlAtPeak == !down && r.overruns == d.overruns)
            && (remaining != TRANSFERS - BURST && remaining != TRANSFERS ==>
                  r.controlAtPeak == d.controlAtPeak && r.overruns == d.overruns + 1)
  {
    var accesses := Rest(plan, remaining, down);
    ExecBesideTimer(d, accesses, gaps);
    var d1 := Apply(accesses[0], Tick(d, gaps[0]));
    var d2 := Apply(accesses[1], Tick(d1, gaps[1]));
    assert Exec(d, accesses, gaps) == Exec(d1, accesses[1..], gaps[1..]);
    assert Exec(d1, accesses[1..], gaps[1..]) == Exec(d2, accesses[2..], gaps[2..]);
    if remaining == TRANSFERS - BURST {
      var d3 := Apply(accesses[2], Tick(d2, gaps[2]));
      assert Exec(d2, accesses[2..], gaps[2..]) == Exec(d3, accesses[3..], gaps[3..]);
    }
  }

  /** The driver when the writes are done. */
  function AfterWrites(d: Driver, plan: TickPlan, s: Schedule): (n: Driver)
    requires s.Fits(d, plan)
  {
    var atStart := Tick(d, s.beforeCall);
    Exec(Tick(atStart, s.beforeDirection), Writes(plan, atStart.hw.Cndtr()), s.beforeWrites)
  }

  /** The timer at the first access that follows the writes. */
  function AtRecheck(d: Driver, plan: TickPlan, s: Schedule): (n: Driver)
    requires s.Fits(d, plan)
  {
    Tick(AfterWrites(d, plan, s), s.beforeRest[0])
  }

  lemma WritesAdvance(d: Driver, plan: TickPlan, s: Schedule)
    requires s.Fits(d, plan)
    ensures AfterWrites(d, plan, s).hw.next == (d.hw.next + (s.beforeCall + s.DuringWrites())) % HALF_PERIODS
  {
    var atStart := Tick(d, s.beforeCall);
    UpdatesAdvance(d.hw, s.beforeCall);
    UpdatesAdvance(atStart.hw, s.beforeDirection);
    ExecAdvances(Tick(atStart, s.beforeDirection), Writes(plan, atStart.hw.Cndtr()), s.beforeWrites);
    AroundTheCycle(d.hw.next, s.beforeCall, s.beforeDirection);
    AroundTheCycle(d.hw.next, s.beforeCall + s.beforeDirection, Sum(s.beforeWrites));
  }

  lemma RecheckAdvances(d: Driver, plan: TickPlan, s: Schedule)
    requires s.Fits(d, plan)
    ensures AtRecheck(d, plan, s).hw.next
         == (d.hw.next + (s.beforeCall + s.DuringWrites() + s.beforeRest[0])) % HALF_PERIODS
  {
    WritesAdvance(d, plan, s);
    UpdatesAdvance(AfterWrites(d, plan, s).hw, s.beforeRest[0]);
    AroundTheCycle(d.hw.next, s.beforeCall + s.DuringWrites(), s.beforeRest[0]);
  }

  lemma WritesDoNotCount(plan: TickPlan, remaining: nat)
    ensures forall x :: x in Writes(plan, remaining) ==> !Counts(x)
  {
  }

  /** Only the re-check, or the last branch, may count. */
  lemma CallCountsAt(d: Driver, plan: TickPlan, s: Schedule)
    requires s.Fits(d, plan)
    ensures var remaining := Tick(d, s.beforeCall).hw.Cndtr();
            var r := Call(d, plan, s);
            && (remaining == TRANSFERS ==> r.overruns == d.overruns)
            && (remaining == TRANSFERS - BURST ==>
                  && d.overruns <= r.overruns <= d.overruns + 1
                  && (r.overruns == d.overruns <==> AtRecheck(d, plan, s).hw.Cndtr() == remaining))
            && (remaining != TRANSFERS && remaining != TRANSFERS - BURST ==> r.overruns == d.overruns + 1)
  {
    var atStart := Tick(d, s.beforeCall);
    var remaining := atStart.hw.Cndtr();
    var atDirection := Tick(atStart, s.beforeDirection);
    var writes := Writes(plan, remaining);
    WritesDoNotCount(plan, remaining);
    ExecUncounted(atDirection, writes, s.beforeWrites);
    ExecRest(Exec(atDirection, writes, s.beforeWrites), plan, remaining, atDirection.hw.down, s.beforeRest);
  }

  lemma CallAdvances(d: Driver, plan: TickPlan, s: Schedule)
    requires s.Fits(d, plan)
    ensures Call(d, plan, s).hw.next == (d.hw.next + s.Total()) % HALF_PERIODS
  {
    var atStart := Tick(d, s.beforeCall);
    var rest := Rest(plan, atStart.hw.Cndtr(), Tick(atStart, s.beforeDirection).hw.down);
    var written := AfterWrites(d, plan, s);
    WritesAdvance(d, plan, s);
    ExecAdvances(written, rest, s.beforeRest);
    UpdatesAdvance(Exec(written, rest, s.beforeRest).hw, s.after);
    AroundTheCycle(d.hw.next, s.beforeCall + s.DuringWrites(), Sum(s.beforeRest));
    AroundTheCycle(d.hw.next, s.beforeCall + s.DuringWrites() + Sum(s.beforeRest), s.after);
  }

  /**
   A call that starts within its cycle counts at most one overrun, and none exactly when it came
   before the control boundary, or right after it with no update up to the re-check.
   */
  lemma CallCounts(d: Driver, plan: TickPlan, s: Schedule)
    requires d.hw.next == 0 && s.Fits(d, plan)
    requires s.beforeCall < HALF_PERIODS && s.Total() <= HALF_PERIODS
    ensures var r := Call(d, plan, s);
            && d.overruns <= r.overruns <= d.overruns + 1
            && (r.overruns == d.overruns <==>
                s.beforeCall == 0 || (s.beforeCall == 1 && s.DuringWrites() + s.beforeRest[0] == 0))
  {
    UpdatesAdvance(d.hw, s.beforeCall);
    CallCountsAt(d, plan, s);
    RecheckAdvances(d, plan, s);
    assert Sum(s.beforeRest) == s.beforeRest[0] + Sum(s.beforeRest[1..]);
  }

  lemma WritesApplied(d: Driver, plan: TickPlan, remaining: nat)
    ensures var r := ApplyAll(d, Writes(plan, remaining));
            r == if remaining == TRANSFERS
                 then d.(hw := d.hw.(slots := [plan[0], plan[1], plan[2], plan[3]]))
                 else if remaining == TRANSFERS - BURST
                 then d.(hw := d.hw.(preload := plan[0], slots := [plan[3], plan[1], plan[2], plan[3]]))
                 else d.(hw := d.hw.(slots := [d.hw.slots[0], plan[1], plan[2], plan[3]]))
  {
    var w := Writes(plan, remaining);
    var d1 := Apply(w[0], d);
    var d2 := Apply(w[1], d1);
    var d3 := Apply(w[2], d2);
    assert ApplyAll(d, w) == ApplyAll(d1, w[1..]);
    assert ApplyAll(d1, w[1..]) == ApplyAll(d2, w[2..]);
    assert ApplyAll(d2, w[2..]) == ApplyAll(d3, w[3..]);
    if |w| > 3 {
      var d4 := Apply(w[3], d3);
      assert ApplyAll(d3, w[3..]) == ApplyAll(d4, w[4..]);
      if |w| > 4 {
        var d5 := Apply(w[4], d4);
        var d6 := Apply(w[5], d5);
        var d7 := Apply(w[6], d6);
        assert ApplyAll(d4, w[4..]) == ApplyAll(d5, w[5..]);
        assert ApplyAll(d5, w[5..]) == ApplyAll(d6, w[6..]);
        assert ApplyAll(d6, w[6..]) == ApplyAll(d7, w[7..]);
      }
    }
  }

  /** Writes that no update splits leave the timer as the atomic call does, and the globals alone. */
  lemma UnsplitWrites(d: Driver, plan: TickPlan, gaps: seq<nat>)
    requires |gaps| == |Writes(plan, d.hw.Cndtr())| && Sum(gaps) == 0
    ensures Exec(d, Writes(plan, d.hw.Cndtr()), gaps) == d.(hw := SetDuty(d, plan).hw)
  {
    ExecWithoutEvents(d, Writes(plan, d.hw.Cndtr()), gaps);
    WritesApplied(d, plan, d.hw.Cndtr());
  }

  /** Without an update among the writes, and in the normal branch up to the re-check, the call is the atomic one. */
  lemma CallIsAtomic(d: Driver, plan: TickPlan, s: Schedule)
    requires d.hw.next == 0 && s.Fits(d, plan) && s.DuringWrites() == 0
    requires s.beforeCall == 0 || (s.beforeCall == 1 && s.beforeRest[0] == 0)
    ensures Call(d, plan, s) == Tick(SetDuty(Tick(d, s.beforeCall), plan), Sum(s.beforeRest) + s.after)
  {
    var atStart := Tick(d, s.beforeCall);
    UpdatesAdvance(d.hw, s.beforeCall);
    var remaining := atStart.hw.Cndtr();
    var atDirection := Tick(atStart, s.beforeDirection);
    assert atDirection == atStart;
    UnsplitWrites(atDirection, plan, s.beforeWrites);
    var written := atStart.(hw := SetDuty(atStart, plan).hw);
    ExecRest(written, plan, remaining, atDirection.hw.down, s.beforeRest);
    UpdatesAdd(written.hw, Sum(s.beforeRest), s.after);
  }

  /** With updates in front of the re-check only, the call is what the driver's method computes. */
  lemma SplitIsCall(d: Driver, plan: TickPlan, s: Schedule)
    requires s.Fits(d, plan) && s.beforeCall == 0 && s.DuringWrites() == 0 && s.after == 0
    requires Sum(s.beforeRest[1..]) == 0
    requires d.hw.Cndtr() != TRANSFERS - BURST ==> s.beforeRest[0] == 0
    ensures Call(d, plan, s) == SetDutySplit(d, plan, s.beforeRest[0])
  {
    assert Tick(d, 0) == d;
    var remaining := d.hw.Cndtr();
    UnsplitWrites(d, plan, s.beforeWrites);
    var written := d.(hw := SetDuty(d, plan).hw);
    RestIsSplit(d, written, plan, s.beforeRest);
  }

  /** What follows the writes, with updates in front of the re-check only. */
  lemma RestIsSplit(d: Driver, written: Driver, plan: TickPlan, gaps: seq<nat>)
    requires written == d.(hw := SetDuty(d, plan).hw) && |gaps| == |Rest(plan, d.hw.Cndtr(), d.hw.down)|
    requires Sum(gaps[1..]) == 0 && (d.hw.Cndtr() != TRANSFERS - BURST ==> gaps[0] == 0)
    ensures Exec(written, Rest(plan, d.hw.Cndtr(), d.hw.down), gaps) == SetDutySplit(d, plan, gaps[0])
  {
    ExecRest(written, plan, d.hw.Cndtr(), d.hw.down, gaps);
    assert Sum(gaps) == gaps[0];
    UpdatesAdvance(written.hw, gaps[0]);
  }

  // ----- The simulator: what a plan means ---------------------------------------------

  /** Compare values of the half periods of one simulated cycle: the carry, then entries 0..2. */
  function SimApplied(carry: PhaseTicks, plan: TickPlan): (r: TickPlan) {
    [carry, plan[0], plan[1], plan[2]]
  }

  /** The half periods of one cycle; the boundary type alternates from the control boundary on. */
  function SimCycle(carry: PhaseTicks, plan: TickPlan, controlAtPeak: bool): (r: seq<HalfPeriod>)
    ensures |r| == HALF_PERIODS
  {
    [HalfPeriod(carry, !controlAtPeak), HalfPeriod(plan[0], controlAtPeak),
     HalfPeriod(plan[1], !controlAtPeak), HalfPeriod(plan[2], controlAtPeak)]
  }

  /**
   AppliedTicks(k) and SampleAtPeak(k) report the half period in which the k-th sample of the
   coming control cycle is taken: the k-th of the last four.
   */
  predicate Reports(d: Driver) {
    && |d.hw.log| >= HALF_PERIODS
    && forall k :: 0 <= k < HALF_PERIODS ==>
         var sampled := d.hw.log[|d.hw.log| - HALF_PERIODS + k];
         d.applied[k] == sampled.ticks && SampleAtPeak(d, k) == sampled.endsAtPeak
  }

  // ----- One control cycle of the register form ----------------------------------------

  /** The control boundary is the next update, and the preload holds the last entry for it. */
  predicate Ready(d: Driver) { d.hw.next == 0 && d.hw.preload == d.lastEntry }

  datatype Cycle = Cycle(plan: TickPlan, s: Schedule)

  /**
   The four update events of a cycle fall anywhere around and inside its call, which starts
   before the last of them. The early branch has no re-check: no update among its writes.
   */
  predicate WellTimed(d: Driver, c: Cycle) {
    && c.s.Fits(d, c.plan)
    && c.s.Total() == HALF_PERIODS && c.s.beforeCall < HALF_PERIODS
    && (c.s.beforeCall == 0 ==> c.s.DuringWrites() == 0)
  }

  lemma FourUpdates(h: Timer)
    ensures Updates(h, 4) == Update(Update(Update(Update(h))))
    ensures Updates(h, 3) == Update(Update(Update(h)))
    ensures Updates(h, 1) == Update(h)
  {
    assert Updates(h, 4) == Updates(Update(h), 3);
    assert Updates(Update(h), 3) == Updates(Update(Update(h)), 2);
    assert Updates(h, 3) == Updates(Update(h), 2);
  }

  /** Four updates around the writes of an early (n == 0) or normal (n == 1) call. */
  lemma TimerCycle(d: Driver, plan: TickPlan, n: nat)
    requires Ready(d) && n <= 1
    ensures var h := Updates(SetDuty(Tick(d, n), plan).hw, 4 - n);
            && h.next == 0 && h.preload == plan[3] && h.down == d.hw.down
            && h.log == d.hw.log + SimCycle(d.lastEntry, plan, !d.hw.down)
  {
    FourUpdates(d.hw);
    FourUpdates(SetDuty(Tick(d, n), plan).hw);
  }

  lemma ReportsAfterCycle(r: Driver, before: seq<HalfPeriod>, carry: PhaseTicks, plan: TickPlan)
    requires r.hw.log == before + SimCycle(carry, plan, r.controlAtPeak)
    requires r.applied == SimApplied(carry, plan)
    ensures Reports(r)
  {
    var s := SimCycle(carry, plan, r.controlAtPeak);
    forall k | 0 <= k < HALF_PERIODS
      ensures r.hw.log[|r.hw.log| - HALF_PERIODS + k] == s[k]
      ensures r.applied[k] == s[k].ticks && SampleAtPeak(r, k) == s[k].endsAtPeak
    {
      assert k == 0 || k == 1 || k == 2 || k == 3;
    }
  }

  lemma AtomicCycleRefinesSimulator(d: Driver, plan: TickPlan, n: nat)
    requires Ready(d) && n <= 1
    ensures var r := Tick(SetDuty(Tick(d, n), plan), 4 - n);
            && Ready(r) && r.hw.down == d.hw.down && r.lastEntry == plan[3]
            && r.hw.log == d.hw.log + SimCycle(d.lastEntry, plan, !d.hw.down)
            && Reports(r) && r.overruns == d.overruns
  {
    TimerCycle(d, plan, n);
    FourUpdates(d.hw);
    ReportsAfterCycle(Tick(SetDuty(Tick(d, n), plan), 4 - n), d.hw.log, d.lastEntry, plan);
  }

  /** A cycle without a counted overrun applies its plan as the simulator does, and reports it. */
  lemma CycleRefinesSimulator(d: Driver, c: Cycle)
    requires Ready(d) && WellTimed(d, c)
    requires Call(d, c.plan, c.s).overruns == d.overruns
    ensures var r := Call(d, c.plan, c.s);
            && Ready(r) && r.hw.down == d.hw.down && r.lastEntry == c.plan[3]
            && r.hw.log == d.hw.log + SimCycle(d.lastEntry, c.plan, !d.hw.down)
            && Reports(r)
  {
    CallCounts(d, c.plan, c.s);
    CallIsAtomic(d, c.plan, c.s);
    AtomicCycleRefinesSimulator(d, c.plan, c.s.beforeCall);
  }

  // ----- Whole runs ----------------------------------------------------------------------

  predicate AllWellTimed(d: Driver, cycles: seq<Cycle>)
    decreases |cycles|
  {
    |cycles| == 0
    || (WellTimed(d, cycles[0]) && AllWellTimed(Call(d, cycles[0].plan, cycles[0].s), cycles[1..]))
  }

  function Run(d: Driver, cycles: seq<Cycle>): (n: Driver)
    requires AllWellTimed(d, cycles)
    decreases |cycles|
  {
    if |cycles| == 0 then d else Run(Call(d, cycles[0].plan, cycles[0].s), cycles[1..])
  }

  /** Half periods the simulator applies for the plans of the cycles. */
  function SimRun(carry: PhaseTicks, cycles: seq<Cycle>, controlAtPeak: bool): (r: seq<HalfPeriod>)
    ensures |r| == HALF_PERIODS * |cycles|
    decreases |cycles|
  {
    if |cycles| == 0 then []
    else SimCycle(carry, cycles[0].plan, controlAtPeak) + SimRun(cycles[0].plan[3], cycles[1..], controlAtPeak)
  }

  /** InitDma() and InitTimer(): neutral everywhere, counting up towards a peak. */
  function Initial(neutral: PhaseTicks): (d: Driver)
    ensures Ready(d)
  {
    var slots: TickPlan := [neutral, neutral, neutral, neutral];
    Driver(Timer(neutral, neutral, false, 0, slots, []), neutral, slots, true, 0)
  }

  lemma CallKeepsCounting(d: Driver, c: Cycle)
    requires d.hw.next == 0 && WellTimed(d, c)
    ensures d.overruns <= Call(d, c.plan, c.s).overruns
    ensures Call(d, c.plan, c.s).hw.next == 0
  {
    CallCounts(d, c.plan, c.s);
    CallAdvances(d, c.plan, c.s);
  }

  lemma {:induction false} RunNeverUncounts(d: Driver, cycles: seq<Cycle>)
    requires d.hw.next == 0 && AllWellTimed(d, cycles)
    ensures d.overruns <= Run(d, cycles).overruns
    decreases |cycles|
  {
    if |cycles| != 0 {
      CallKeepsCounting(d, cycles[0]);
      RunNeverUncounts(Call(d, cycles[0].plan, cycles[0].s), cycles[1..]);
    }
  }

  lemma ConcatAssociates(a: seq<HalfPeriod>, b: seq<HalfPeriod>, c: seq<HalfPeriod>)
    ensures (a + b) + c == a + (b + c)
  {
  }

  lemma {:induction false} RunFromReady(d: Driver, cycles: seq<Cycle>)
    requires Ready(d) && AllWellTimed(d, cycles)
    requires Run(d, cycles).overruns == d.overruns
    ensures Run(d, cycles).hw.log == d.hw.log + SimRun(d.lastEntry, cycles, !d.hw.down)
    decreases |cycles|
  {
    if |cycles| != 0 {
      var d1 := Call(d, cycles[0].plan, cycles[0].s);
      CallKeepsCounting(d, cycles[0]);
      RunNeverUncounts(d1, cycles[1..]);
      CycleRefinesSimulator(d, cycles[0]);
      RunFromReady(d1, cycles[1..]);
      ConcatAssociates(d.hw.log, SimCycle(d.lastEntry, cycles[0].plan, !d.hw.down),
                       SimRun(cycles[0].plan[3], cycles[1..], !d.hw.down));
    }
  }

  lemma {:induction false} RunReports(d: Driver, cycles: seq<Cycle>)
    requires Ready(d) && AllWellTimed(d, cycles)
    requires Run(d, cycles).overruns == d.overruns
    requires Reports(d) || |cycles| > 0
    ensures Reports(Run(d, cycles))
    decreases |cycles|
  {
    if |cycles| != 0 {
      var d1 := Call(d, cycles[0].plan, cycles[0].s);
      CallKeepsCounting(d, cycles[0]);
      RunNeverUncounts(d1, cycles[1..]);
      CycleRefinesSimulator(d, cycles[0]);
      RunReports(d1, cycles[1..]);
    }
  }

  /**
   In every run without a counted overrun, for any mix of early and normal cycles and any
   placement of the update events, the half periods are exactly those of the simulator, and
   AppliedTicks(k) and SampleAtPeak(k) report the half period of the k-th sample of the next cycle.
   */
  lemma RunRefinesSimulator(neutral: PhaseTicks, cycles: seq<Cycle>)
    requires AllWellTimed(Initial(neutral), cycles)
    requires Run(Initial(neutral), cycles).overruns == 0
    ensures var r := Run(Initial(neutral), cycles);
            && r.hw.log == SimRun(neutral, cycles, true)
            && (|cycles| > 0 ==> Reports(r))
  {
    RunFromReady(Initial(neutral), cycles);
    if |cycles| > 0 {
      RunReports(Initial(neutral), cycles);
    }
    assert [] + SimRun(neutral, cycles, true) == SimRun(neutral, cycles, true);
  }

  /** Cycles whose call came late, or was split by an update before the re-check. */
  function Missed(d: Driver, cycles: seq<Cycle>): (r: nat)
    requires AllWellTimed(d, cycles)
    decreases |cycles|
  {
    if |cycles| == 0 then 0
    else
      var s := cycles[0].s;
      var inTime := s.beforeCall == 0 || (s.beforeCall == 1 && s.DuringWrites() + s.beforeRest[0] == 0);
      (if inTime then 0 else 1) + Missed(Call(d, cycles[0].plan, s), cycles[1..])
  }

  /** DutyOverruns() counts every missed cycle once. */
  lemma {:induction false} OverrunsCountMissedCycles(d: Driver, cycles: seq<Cycle>)
    requires d.hw.next == 0 && AllWellTimed(d, cycles)
    ensures Run(d, cycles).overruns == d.overruns + Missed(d, cycles)
    decreases |cycles|
  {
    if |cycles| != 0 {
      CallCounts(d, cycles[0].plan, cycles[0].s);
      CallKeepsCounting(d, cycles[0]);
      OverrunsCountMissedCycles(Call(d, cycles[0].plan, cycles[0].s), cycles[1..]);
    }
  }

  // ----- The early branch has no re-check ---------------------------------------------------

  /** The first burst after `base` half periods takes, or took, the old slot 0. */
  predicate Stale(h: Timer, base: nat, old0: PhaseTicks) {
    && |h.log| >= base
    && (|h.log| == base ==> h.next == 0 && h.slots[0] == old0)
    && (|h.log| == base + 1 ==> h.preload == old0)
    && (|h.log| >= base + 2 ==> h.log[base + 1].ticks == old0)
  }

  lemma {:induction false} StaleAfterUpdates(h: Timer, base: nat, old0: PhaseTicks, n: nat)
    requires Stale(h, base, old0)
    ensures Stale(Updates(h, n), base, old0) && |Updates(h, n).log| == |h.log| + n
    decreases n
  {
    if n != 0 {
      StaleAfterUpdates(Update(h), base, old0, n - 1);
    }
  }

  /** An early call's writes up to slot 0 keep the first burst stale once an update has come. */
  lemma {:induction false} StaleDuringWrites(d: Driver, accesses: seq<Access>, gaps: seq<nat>, base: nat,
                                             old0: PhaseTicks)
    requires |accesses| == |gaps| && Stale(d.hw, base, old0)
    requires forall j :: 0 <= j < |accesses| ==>
               accesses[j].WriteSlot? && (accesses[j].k == 0 ==> j == |accesses| - 1)
    requires |d.hw.log| + Sum(gaps) > base
    ensures var r := Exec(d, accesses, gaps);
            Stale(r.hw, base, old0) && |r.hw.log| == |d.hw.log| + Sum(gaps)
    decreases |accesses|
  {
    if |accesses| != 0 {
      StaleAfterUpdates(d.hw, base, old0, gaps[0]);
      var d1 := Apply(accesses[0], Tick(d, gaps[0]));
      assert |gaps| == 1 ==> Sum(gaps[1..]) == 0;
      StaleDuringWrites(d1, accesses[1..], gaps[1..], base, old0);
    }
  }

  lemma SplitEarlyCallIsStale(d: Driver, plan: TickPlan, s: Schedule)
    requires d.hw.next == 0 && s.Fits(d, plan) && s.beforeCall == 0
    requires s.DuringWrites() > 0 && s.Total() == HALF_PERIODS
    ensures var r := Call(d, plan, s);
            |r.hw.log| == |d.hw.log| + HALF_PERIODS && r.hw.log[|d.hw.log| + 1].ticks == d.hw.slots[0]
  {
    var base, old0 := |d.hw.log|, d.hw.slots[0];
    var writes := Writes(plan, TRANSFERS);
    StaleAfterUpdates(d.hw, base, old0, s.beforeDirection);
    var d0 := Tick(d, s.beforeDirection);
    StaleDuringWrites(d0, writes, s.beforeWrites, base, old0);
    var written := Exec(d0, writes, s.beforeWrites);
    StaleToTheEnd(written, plan, d0.hw.down, s.beforeRest, s.after, base, old0);
  }

  lemma StaleToTheEnd(written: Driver, plan: TickPlan, down: bool, gaps: seq<nat>, after: nat, base: nat,
                      old0: PhaseTicks)
    requires Stale(written.hw, base, old0) && |gaps| == |Rest(plan, TRANSFERS, down)|
    ensures var r := Tick(Exec(written, Rest(plan, TRANSFERS, down), gaps), after);
            Stale(r.hw, base, old0) && |r.hw.log| == |written.hw.log| + Sum(gaps) + after
  {
    ExecRest(written, plan, TRANSFERS, down, gaps);
    UpdatesAdd(written.hw, Sum(gaps), after);
    StaleAfterUpdates(written.hw, base, old0, Sum(gaps) + after);
  }

  /**
   An early call is never counted, and its entry 0 reaches the motor if and only if no update
   event came before its write of slot 0 (the old slot 0 held something else).
   */
  lemma EarlyCallDeliversIffUnsplit(d: Driver, plan: TickPlan, s: Schedule)
    requires Ready(d) && s.Fits(d, plan) && s.beforeCall == 0 && s.Total() == HALF_PERIODS
    requires plan[0] != d.hw.slots[0]
    ensures var r := Call(d, plan, s);
            && r.overruns == d.overruns && |r.hw.log| == |d.hw.log| + HALF_PERIODS
            && (r.hw.log[|d.hw.log| + 1].ticks == plan[0] <==> s.DuringWrites() == 0)
  {
    CallCounts(d, plan, s);
    if s.DuringWrites() == 0 {
      CycleRefinesSimulator(d, Cycle(plan, s));
    } else {
      SplitEarlyCallIsStale(d, plan, s);
    }
  }

  // ----- The driver and the simulator as they run -------------------------------------------------

  /** The timer registers, the DMA slots and the globals of foc_stm32g4.cpp. */
  class FocDriver {
    var slots: array<PhaseTicks>
    var active: PhaseTicks
    var ccr: PhaseTicks
    var countingDown: bool
    var next: SlotIndex
    var lastEntry: PhaseTicks
    var applied: array<PhaseTicks>
    var controlAtPeak: bool
    var overruns: nat
    ghost var log: seq<HalfPeriod>

    ghost predicate Valid()
      reads this
    {
      slots.Length == HALF_PERIODS && applied.Length == HALF_PERIODS && slots != applied
    }

    ghost function State(): (n: Driver)
      requires Valid()
      reads this, slots, applied
    {
      Driver(Timer(active, ccr, countingDown, next, slots[..], log), lastEntry, applied[..], controlAtPeak, overruns)
    }

    /** InitDma() on a timer that InitTimer() has programmed. */
    constructor (neutral: PhaseTicks)
      ensures Valid() && fresh(slots) && fresh(applied) && State() == Initial(neutral)
    {
      slots := new PhaseTicks[HALF_PERIODS](i => neutral);
      applied := new PhaseTicks[HALF_PERIODS](i => neutral);
      active, ccr, countingDown, next := neutral, neutral, false, 0;
      lastEntry, controlAtPeak, overruns, log := neutral, true, 0, [];
      new;
      assert slots[..] == [neutral, neutral, neutral, neutral];
      assert applied[..] == [neutral, neutral, neutral, neutral];
    }

    /** The timer at a peak or a valley. */
    method UpdateEvent()
      requires Valid()
      modifies this
      ensures Valid() && slots == old(slots) && applied == old(applied)
      ensures State() == Tick(old(State()), 1)
    {
      log := log + [HalfPeriod(ccr, countingDown)];
      active, ccr, countingDown := ccr, slots[next], !countingDown;
      next := if next == HALF_PERIODS - 1 then 0 else next + 1;
      FourUpdates(old(State()).hw);
    }

    /** SetDutyTicks(); `split` update events come in front of the re-check of the normal branch. */
    method SetDutyTicks(ticks: TickPlan, split: nat)
      requires Valid()
      modifies this, slots, applied
      ensures Valid() && slots == old(slots) && applied == old(applied)
      ensures State() == SetDutySplit(old(State()), ticks, split)
      ensures split == 0 || old(State()).hw.Cndtr() != TRANSFERS - BURST ==> State() == SetDuty(old(State()), ticks)
    {
      var remaining := TRANSFERS - BURST * next;
      var down := countingDown;
      WriteSlots(ticks);
      if remaining == TRANSFERS - BURST {
        Normal(ticks, split);
        if TRANSFERS - BURST * next != remaining {
          overruns := overruns + 1;
        }
        controlAtPeak := down;
      } else if remaining == TRANSFERS {
        Early(ticks);
        controlAtPeak := !down;
      } else {
        overruns := overruns + 1;
      }
      Finish(ticks);
    }

    /** The bookkeeping at the end. */
    method Finish(ticks: TickPlan)
      requires Valid()
      modifies applied, `lastEntry
      ensures Valid()
      ensures State() == old(State()).(applied := [old(lastEntry), ticks[0], ticks[1], ticks[2]], lastEntry := ticks[3])
    {
      ShiftApplied(ticks);
      lastEntry := ticks[HALF_PERIODS - 1];
    }

    /** The write of the early branch. */
    method Early(ticks: TickPlan)
      requires Valid()
      modifies slots
      ensures State() == old(State()).(hw := old(State()).hw.(slots := old(State()).hw.slots[0 := ticks[0]]))
    {
      slots[0] := ticks[0];
      assert slots[..] == old(slots[..])[0 := ticks[0]];
    }

    /** The writes of the normal branch, with the update events that come before its re-check. */
    method Normal(ticks: TickPlan, split: nat)
      requires Valid()
      modifies this, slots
      ensures Valid() && slots == old(slots) && applied == old(applied)
      ensures var h := old(State()).hw;
              State() == old(State()).(hw := Updates(h.(preload := ticks[0], slots := h.slots[0 := ticks[3]]), split))
      ensures next == (old(next) + split) % HALF_PERIODS
    {
      ccr := ticks[0];
      slots[0] := ticks[HALF_PERIODS - 1];
      assert slots[..] == old(slots[..])[0 := ticks[3]];
      UpdateEvents(split);
    }

    method UpdateEvents(n: nat)
      requires Valid()
      modifies this
      ensures Valid() && slots == old(slots) && applied == old(applied)
      ensures State() == Tick(old(State()), n)
      ensures next == (old(next) + n) % HALF_PERIODS
      decreases n
    {
      if n > 0 {
        UpdateEvent();
        UpdateEvents(n - 1);
      }
      UpdatesAdd(old(State()).hw, 1, if n > 0 then n - 1 else 0);
      UpdatesAdvance(old(State()).hw, n);
    }

    /** The start of SetDutyTicks(): entries 1..3 into the slots of the next three bursts. */
    method WriteSlots(ticks: TickPlan)
      requires Valid()
      modifies slots
      ensures slots[..] == [old(slots[0]), ticks[1], ticks[2], ticks[3]]
    {
      for k := 1 to HALF_PERIODS
        invariant slots[0] == old(slots[0])
        invariant forall j :: 1 <= j < k ==> slots[j] == ticks[j]
      {
        slots[k] := ticks[k];
      }
    }

    /** The end of SetDutyTicks(): what will have been active while the next samples are taken. */
    method ShiftApplied(ticks: TickPlan)
      requires Valid()
      modifies applied
      ensures applied[..] == [lastEntry, ticks[0], ticks[1], ticks[2]]
    {
      applied[0] := lastEntry;
      for k := 1 to HALF_PERIODS
        invariant applied[0] == lastEntry
        invariant forall j :: 1 <= j < k ==> applied[j] == ticks[j - 1]
      {
        applied[k] := ticks[k - 1];
      }
    }
  }

  /** The duty globals of the simulator. */
  class Simulator {
    var carry: PhaseTicks
    var applied: array<PhaseTicks>

    /** The half periods of RunCycle() once the control cycle has written its plan. */
    method RunCycle(plan: TickPlan)
      requires applied.Length == HALF_PERIODS
      modifies this`carry, applied
      ensures applied[..] == SimApplied(old(carry), plan) && carry == plan[3]
    {
      for k := 0 to HALF_PERIODS
        invariant carry == old(carry)
        invariant forall j :: 0 <= j < k ==> applied[j] == if j == 0 then old(carry) else plan[j - 1]
      {
        applied[k] := if k == 0 then carry else plan[k - 1];
      }
      carry := plan[HALF_PERIODS - 1];
    }

    constructor (neutral: PhaseTicks)
      ensures applied.Length == HALF_PERIODS && fresh(applied) && carry == neutral
    {
      carry := neutral;
      applied := new PhaseTicks[HALF_PERIODS](i => neutral);
    }
  }
}
