/**
 Release of the power stage outputs, trips, and the flag that keeps a flash save and a release apart.

 Threads run Enable() and saves access by access; interrupts (trip, disable, a changed external
 enable) may come between any two accesses. The same accesses describe the battery case
 controller (BDTR.MOE, SR.BIF) and the simulated stage (`enabled`, `fault`).
 */
module PowerStage {

  datatype Board = Bcc | Simulated

  /** MOE and BIF of the timer, and the external enable (the break input). */
  datatype Regs = Regs(moe: bool, bif: bool, external: bool)

  datatype Irq = Trip | Disable | ExternalOff | ExternalOn | ClearFault

  /** A break clears MOE and latches BIF; an absent external enable latches it again. */
  function Interrupt(r: Regs, irq: Irq): (n: Regs) {
    match irq
    case Trip => r.(moe := false, bif := true)
    case Disable => r.(moe := false)
    case ExternalOff => Regs(false, true, false)
    case ExternalOn => r.(external := true)
    case ClearFault => r.(bif := !r.external)
  }

  /**
   What a thread does next. The first line is Enable() around PowerStageEnable(), with its two
   read-modify-writes of BDTR taken apart; the second a save inside the gate.
   */
  datatype Pc =
    | Idle
    | ReadMoe | ReadEnable | ReadFault | ReadBdtr | WriteBdtr | Recheck | ReadBdtrBack | WriteBdtrBack
    | ReadResult | Unlock(released: bool)
    | CheckMoe | CheckEnable | CheckFault | Saving

  /** One access of PowerStageEnable(). The hardware ignores MOE while the break input is active. */
  function Access(b: Board, r: Regs, pc: Pc): (n: (Regs, Pc)) {
    match pc
    case ReadMoe => (r, if r.moe then Unlock(true) else ReadEnable)
    case ReadEnable => (r, if r.external then ReadFault else Unlock(false))
    case ReadFault => (r, if r.bif then Unlock(false) else ReadBdtr)
    case ReadBdtr => (r, WriteBdtr)
    case WriteBdtr => (r.(moe := r.external || b == Simulated || r.moe), Recheck)
    case Recheck => (r, if r.bif then ReadBdtrBack else ReadResult)
    case ReadBdtrBack => (r, WriteBdtrBack)
    case WriteBdtrBack => (r.(moe := false), Unlock(false))
    case ReadResult => (r, Unlock(r.moe || b == Simulated))
    case _ => (r, pc)
  }

  /** The outputs may be on with a latched fault: the caller has not looked again yet. */
  predicate InWindow(pc: Pc) { pc in {Recheck, ReadBdtrBack, WriteBdtrBack} }

  // ----- All threads ----------------------------------------------------------------

  /** `lock` is enable_lock_; `storageLog` lists MOE at every storage operation of a save. */
  datatype State = State(board: Board, regs: Regs, lock: bool, pcs: seq<Pc>, storageLog: seq<bool>)

  datatype Action =
    | CallEnable(t: nat)
    | BeginSave(t: nat)
    | Step(t: nat)
    | StorageOperation(t: nat)
    | EndSave(t: nat)
    | Fire(irq: Irq)

  predicate Possible(s: State, a: Action) {
    match a
    case Fire(_) => true
    case CallEnable(t) => t < |s.pcs| && s.pcs[t] == Idle
    case BeginSave(t) => t < |s.pcs| && s.pcs[t] == Idle
    case Step(t) => t < |s.pcs| && s.pcs[t] != Idle && s.pcs[t] != Saving
    case StorageOperation(t) => t < |s.pcs| && s.pcs[t] == Saving
    case EndSave(t) => t < |s.pcs| && s.pcs[t] == Saving
  }

  function Release(s: State, t: nat): (n: State)
    requires t < |s.pcs|
  {
    s.(lock := false, pcs := s.pcs[t := Idle])
  }

  function Next(s: State, a: Action): (n: State)
    requires Possible(s, a)
  {
    match a
    case Fire(irq) => s.(regs := Interrupt(s.regs, irq))
    case CallEnable(t) => if s.lock then s else s.(lock := true, pcs := s.pcs[t := ReadMoe])
    case BeginSave(t) => if s.lock then s else s.(lock := true, pcs := s.pcs[t := CheckMoe])
    case StorageOperation(t) => s.(storageLog := s.storageLog + [s.regs.moe])
    case EndSave(t) => Release(s, t)
    case Step(t) =>
      match s.pcs[t]
      case Unlock(_) => Release(s, t)
      case CheckMoe => if s.regs.moe then Release(s, t) else s.(pcs := s.pcs[t := CheckEnable])
      case CheckEnable => if s.regs.external then s.(pcs := s.pcs[t := CheckFault]) else Release(s, t)
      case CheckFault => if s.regs.bif then Release(s, t) else s.(pcs := s.pcs[t := Saving])
      case pc =>
        var (regs, pc') := Access(s.board, s.regs, pc);
        s.(regs := regs, pcs := s.pcs[t := pc'])
  }

  function Run(s: State, actions: seq<Action>): (n: State)
    decreases |actions|
  {
    if |actions| == 0 then s
    else Run(if Possible(s, actions[0]) then Next(s, actions[0]) else s, actions[1..])
  }

  /** Nothing runs and the outputs are off; a missing external enable has latched. */
  predicate Initial(s: State) {
    && !s.regs.moe && !s.lock && s.storageLog == []
    && (!s.regs.external ==> s.regs.bif)
    && forall t :: 0 <= t < |s.pcs| ==> s.pcs[t] == Idle
  }

  // ----- What every step keeps ---------------------------------------------------------

  /** The flag is held by exactly one thread, from its test-and-set to its clear. */
  ghost predicate OneHolder(s: State) {
    && (forall t, u :: 0 <= t < u < |s.pcs| ==> s.pcs[t] == Idle || s.pcs[u] == Idle)
    && (s.lock <==> exists t :: 0 <= t < |s.pcs| && s.pcs[t] != Idle)
  }

  predicate Checked(pc: Pc) { pc in {CheckEnable, CheckFault, Saving} }

  ghost predicate SomeInWindow(s: State) {
    exists t :: 0 <= t < |s.pcs| && InWindow(s.pcs[t])
  }

  ghost predicate Inv(s: State) {
    && OneHolder(s)
    && (forall t :: 0 <= t < |s.pcs| && Checked(s.pcs[t]) ==> !s.regs.moe)
    && (s.regs.bif && s.regs.moe ==> SomeInWindow(s))
    && (!s.regs.external ==> s.regs.bif)
    && (forall j :: 0 <= j < |s.storageLog| ==> !s.storageLog[j])
  }

  lemma InterruptKeepsInv(s: State, irq: Irq)
    requires Inv(s)
    ensures Inv(s.(regs := Interrupt(s.regs, irq)))
  {
  }

  /** The holder moves on to `pc`, or lets go. */
  lemma HolderMoves(s: State, t: nat, regs: Regs, pc: Pc)
    requires Inv(s) && t < |s.pcs| && s.pcs[t] != Idle
    requires Checked(pc) ==> !regs.moe
    requires regs.bif && regs.moe ==> InWindow(pc)
    requires !regs.external ==> regs.bif
    ensures Inv(s.(regs := regs, lock := pc != Idle, pcs := s.pcs[t := pc]))
  {
    var r := s.(regs := regs, lock := pc != Idle, pcs := s.pcs[t := pc]);
    assert r.pcs[t] == pc;
    assert forall u :: 0 <= u < |s.pcs| && u != t ==> s.pcs[u] == Idle && r.pcs[u] == Idle;
  }

  lemma TakesLock(s: State, t: nat, pc: Pc)
    requires Inv(s) && t < |s.pcs| && s.pcs[t] == Idle && !s.lock && pc in {ReadMoe, CheckMoe}
    ensures Inv(s.(lock := true, pcs := s.pcs[t := pc]))
  {
    var r := s.(lock := true, pcs := s.pcs[t := pc]);
    assert r.pcs[t] == pc;
    assert forall u :: 0 <= u < |s.pcs| ==> s.pcs[u] == Idle;
  }

  lemma NextKeepsInv(s: State, a: Action)
    requires Inv(s) && Possible(s, a)
    ensures Inv(Next(s, a))
  {
    match a
    case Fire(irq) => InterruptKeepsInv(s, irq);
    case CallEnable(t) => if !s.lock { TakesLock(s, t, ReadMoe); }
    case BeginSave(t) => if !s.lock { TakesLock(s, t, CheckMoe); }
    case StorageOperation(t) => assert Checked(s.pcs[t]);
    case EndSave(t) =>
      assert Checked(s.pcs[t]);
      HolderMoves(s, t, s.regs, Idle);
    case Step(t) => StepKeepsInv(s, t);
  }

  /** One access of the holder: what HolderMoves() asks of it. */
  lemma StepMoves(s: State, t: nat)
    requires Inv(s) && Possible(s, Step(t)) && s.lock
    requires (s.regs.bif && s.regs.moe ==> InWindow(s.pcs[t])) && (Checked(s.pcs[t]) ==> !s.regs.moe)
    ensures var n := Next(s, Step(t));
            && |n.pcs| == |s.pcs| && n == s.(regs := n.regs, lock := n.pcs[t] != Idle, pcs := s.pcs[t := n.pcs[t]])
            && (Checked(n.pcs[t]) ==> !n.regs.moe)
            && (n.regs.bif && n.regs.moe ==> InWindow(n.pcs[t]))
            && (!n.regs.external ==> n.regs.bif)
  {
  }

  lemma StepKeepsInv(s: State, t: nat)
    requires Inv(s) && Possible(s, Step(t))
    ensures Inv(Next(s, Step(t)))
  {
    HolderHasLock(s, t);
    StepMoves(s, t);
    var n := Next(s, Step(t));
    HolderMoves(s, t, n.regs, n.pcs[t]);
  }

  /** While thread `t` holds the flag, only `t` can be in the window. */
  lemma HolderHasLock(s: State, t: nat)
    requires Inv(s) && t < |s.pcs| && s.pcs[t] != Idle
    ensures s.lock && (s.regs.bif && s.regs.moe ==> InWindow(s.pcs[t]))
    ensures Checked(s.pcs[t]) ==> !s.regs.moe
  {
    if s.regs.bif && s.regs.moe {
      var u :| 0 <= u < |s.pcs| && InWindow(s.pcs[u]);
      assert u == t;
    }
  }

  lemma {:induction false} RunKeepsInv(s: State, actions: seq<Action>)
    requires Inv(s)
    ensures Inv(Run(s, actions))
    decreases |actions|
  {
    if |actions| != 0 {
      if Possible(s, actions[0]) {
        NextKeepsInv(s, actions[0]);
      }
      RunKeepsInv(if Possible(s, actions[0]) then Next(s, actions[0]) else s, actions[1..]);
    }
  }

  // ----- Whole runs -----------------------------------------------------------------------

  /** However savers, Enable() callers and interrupts interleave, no storage operation runs with the outputs on. */
  lemma NoStorageOperationWhileReleased(s: State, actions: seq<Action>)
    requires Initial(s)
    ensures var r := Run(s, actions);
            forall j :: 0 <= j < |r.storageLog| ==> !r.storageLog[j]
  {
    RunKeepsInv(s, actions);
  }

  /** With all calls back, the flag is free again: every save and every Enable() let go of it. */
  lemma LockComesBack(s: State, actions: seq<Action>)
    requires Initial(s)
    ensures var r := Run(s, actions);
            (forall t :: 0 <= t < |r.pcs| ==> r.pcs[t] == Idle) <==> !r.lock
  {
    RunKeepsInv(s, actions);
  }

  /**
   A latched fault keeps the outputs off whenever no Enable() is between its write of MOE and its
   second look at the fault; wherever the trip came, once the call is back they are off.
   */
  lemma FaultMeansOff(s: State, actions: seq<Action>)
    requires Initial(s)
    ensures var r := Run(s, actions);
            r.regs.bif && !SomeInWindow(r) ==> !r.regs.moe
  {
    RunKeepsInv(s, actions);
  }

  /** Only ClearFault() ends a latched fault. */
  lemma {:induction false} FaultStaysLatched(s: State, actions: seq<Action>)
    requires s.regs.bif && Fire(ClearFault) !in actions
    ensures Run(s, actions).regs.bif
    decreases |actions|
  {
    if |actions| != 0 {
      assert actions[0] != Fire(ClearFault);
      FaultStaysLatched(if Possible(s, actions[0]) then Next(s, actions[0]) else s, actions[1..]);
    }
  }

  lemma {:induction false} RunAppend(s: State, a: seq<Action>, b: seq<Action>)
    ensures Run(s, a + b) == Run(Run(s, a), b)
    decreases |a|
  {
    if |a| == 0 {
      assert a + b == b;
    } else {
      assert (a + b)[0] == a[0] && (a + b)[1..] == a[1..] + b;
      RunAppend(if Possible(s, a[0]) then Next(s, a[0]) else s, a[1..], b);
    }
  }

  /**
   A trip at any point is never undone: until ClearFault() the outputs are off in every state without a
   call in the window.
   */
  lemma TripIsNeverUndone(s: State, before: seq<Action>, after: seq<Action>)
    requires Initial(s) && Fire(ClearFault) !in after
    ensures var r := Run(s, before + [Fire(Trip)] + after);
            r.regs.bif && (!SomeInWindow(r) ==> !r.regs.moe)
  {
    var tripped := Run(s, before + [Fire(Trip)]);
    RunAppend(s, before, [Fire(Trip)]);
    assert Run(Run(s, before), [Fire(Trip)]) == Run(Next(Run(s, before), Fire(Trip)), []);
    RunAppend(s, before + [Fire(Trip)], after);
    FaultStaysLatched(tripped, after);
    FaultMeansOff(s, before + [Fire(Trip)] + after);
  }

  /** On the board, an Enable() that reports success has just read the outputs on, with no fault latched. */
  lemma SuccessMeansReleased(s: State, actions: seq<Action>, t: nat)
    requires Initial(s) && s.board == Bcc
    ensures var r := Run(s, actions);
            Possible(r, Step(t)) && !r.pcs[t].Unlock? && Next(r, Step(t)).pcs[t] == Unlock(true)
            ==> r.regs.moe && !r.regs.bif && r.regs.external
  {
    RunKeepsInv(s, actions);
    RunKeepsBoard(s, actions);
    var r := Run(s, actions);
    if Possible(r, Step(t)) {
      HolderHasLock(r, t);
    }
  }

  lemma {:induction false} RunKeepsBoard(s: State, actions: seq<Action>)
    ensures Run(s, actions).board == s.board
    decreases |actions|
  {
    if |actions| != 0 {
      RunKeepsBoard(if Possible(s, actions[0]) then Next(s, actions[0]) else s, actions[1..]);
    }
  }

  // ----- One call, with its interrupts ---------------------------------------------------------

  function FireAll(r: Regs, irqs: seq<Irq>): (n: Regs)
    decreases |irqs|
  {
    if |irqs| == 0 then r else FireAll(Interrupt(r, irqs[0]), irqs[1..])
  }

  function Index(pc: Pc): (r: nat) {
    match pc
    case ReadMoe => 0
    case ReadEnable => 1
    case ReadFault => 2
    case ReadBdtr => 3
    case WriteBdtr => 4
    case Recheck => 5
    case ReadBdtrBack => 6
    case WriteBdtrBack => 7
    case ReadResult => 8
    case _ => 9
  }

  const ACCESSES: nat := 9

  /** PowerStageEnable() from `pc` on, with the interrupts `irqs[k]` in front of access `k`. */
  function EnableFrom(b: Board, r: Regs, pc: Pc, irqs: seq<seq<Irq>>): (n: (Regs, bool))
    requires |irqs| == ACCESSES
    decreases ACCESSES - Index(pc), |irqs|
  {
    if Index(pc) == ACCESSES then (r, pc == Unlock(true))
    else
      var (r', pc') := Access(b, FireAll(r, irqs[Index(pc)]), pc);
      EnableFrom(b, r', pc', irqs)
  }

  lemma {:induction false} FireAllSafe(r: Regs, irqs: seq<Irq>)
    requires !r.external ==> r.bif
    ensures var q := FireAll(r, irqs);
            (!q.external ==> q.bif) && (q.bif && q.moe ==> r.bif && r.moe)
    decreases |irqs|
  {
    if |irqs| != 0 {
      FireAllSafe(Interrupt(r, irqs[0]), irqs[1..]);
    }
  }

  /** Whatever interrupts split the call, a fault that is latched when it returns holds the outputs off. */
  lemma {:induction false} EnableReturnsSafe(b: Board, r: Regs, pc: Pc, irqs: seq<seq<Irq>>)
    requires |irqs| == ACCESSES && (!r.external ==> r.bif)
    requires r.bif && r.moe ==> InWindow(pc)
    requires pc == Unlock(true) && b == Bcc ==> r.moe
    ensures var (q, ok) := EnableFrom(b, r, pc, irqs);
            (!q.external ==> q.bif) && (q.bif ==> !q.moe) && (ok && b == Bcc ==> q.moe)
    decreases ACCESSES - Index(pc)
  {
    if Index(pc) != ACCESSES {
      FireAllSafe(r, irqs[Index(pc)]);
      var (r', pc') := Access(b, FireAll(r, irqs[Index(pc)]), pc);
      EnableReturnsSafe(b, r', pc', irqs);
    }
  }

  datatype StageState = StageDisabled | StageEnabled | StageFault | StageBlocked

  // ----- What happens without interrupts ---------------------------------------------------------

  function NoInterrupts(): (irqs: seq<seq<Irq>>)
    ensures |irqs| == ACCESSES
  {
    seq(ACCESSES, _ => [])
  }

  /** Exactly a stage with the external enable and no latched fault is released, or one that is so already. */
  lemma UndisturbedEnableReleases(b: Board, r: Regs)
    ensures var released := r.moe || (r.external && !r.bif);
            EnableFrom(b, r, ReadMoe, NoInterrupts()) == (if released then r.(moe := true) else r, released)
  {
    var irqs := NoInterrupts();
    if !r.moe && r.external && !r.bif {
      var on := r.(moe := true);
      assert EnableFrom(b, r, ReadMoe, irqs) == EnableFrom(b, r, ReadEnable, irqs) == EnableFrom(b, r, ReadFault, irqs);
      assert EnableFrom(b, r, ReadFault, irqs) == EnableFrom(b, r, ReadBdtr, irqs) == EnableFrom(b, r, WriteBdtr, irqs);
      assert EnableFrom(b, r, WriteBdtr, irqs) == EnableFrom(b, on, Recheck, irqs);
      assert EnableFrom(b, on, Recheck, irqs) == EnableFrom(b, on, ReadResult, irqs);
      assert EnableFrom(b, on, ReadResult, irqs) == EnableFrom(b, on, Unlock(true), irqs);
    } else if !r.moe {
      assert EnableFrom(b, r, ReadMoe, irqs) == EnableFrom(b, r, ReadEnable, irqs);
      if r.external {
        assert EnableFrom(b, r, ReadEnable, irqs) == EnableFrom(b, r, ReadFault, irqs);
      }
    }
  }

  function Steps(t: nat, n: nat): (r: seq<Action>) {
    if n == 0 then [] else [Step(t)] + Steps(t, n - 1)
  }

  lemma RunSteps(s: State, t: nat, n: nat)
    ensures Run(s, Steps(t, n))
         == if n == 0 then s else Run(if Possible(s, Step(t)) then Next(s, Step(t)) else s, Steps(t, n - 1))
  {
    if n > 0 {
      assert Steps(t, n)[1..] == Steps(t, n - 1);
    }
  }

  /** A thread that does not run makes no step. */
  lemma {:induction false} IdleStays(s: State, t: nat, n: nat)
    requires t < |s.pcs| && (s.pcs[t] == Idle || s.pcs[t] == Saving)
    ensures Run(s, Steps(t, n)) == s
    decreases n
  {
    RunSteps(s, t, n);
    if n > 0 {
      IdleStays(s, t, n - 1);
    }
  }

  /** What the gate asks for: the flag is free, the outputs are off, and neither break nor fault holds them. */
  predicate MaySave(lock: bool, r: Regs) { !lock && !r.moe && r.external && !r.bif }

  /** The test-and-set of a save and its checks in a row are granted exactly then, and change nothing else. */
  lemma UndisturbedSaveBegins(s: State, t: nat)
    requires t < |s.pcs| && s.pcs[t] == Idle
    ensures Run(s, [BeginSave(t)] + Steps(t, 3))
         == if MaySave(s.lock, s.regs) then s.(lock := true, pcs := s.pcs[t := Saving]) else s
  {
    var actions := [BeginSave(t)] + Steps(t, 3);
    assert actions[1..] == Steps(t, 3);
    var s1 := Next(s, BeginSave(t));
    assert Run(s, actions) == Run(s1, Steps(t, 3));
    if s.lock {
      IdleStays(s1, t, 3);
    } else {
      ChecksInARow(s1, t);
      assert s.pcs[t := Idle] == s.pcs;
    }
  }

  /** The save of a thread goes on, or is given up. */
  function Decided(s: State, t: nat, granted: bool): (r: State)
    requires t < |s.pcs|
  {
    if granted then s.(pcs := s.pcs[t := Saving]) else s.(lock := false, pcs := s.pcs[t := Idle])
  }

  lemma FaultCheck(s: State, t: nat)
    requires t < |s.pcs| && s.pcs[t] == CheckFault
    ensures Run(s, Steps(t, 1)) == Decided(s, t, !s.regs.bif)
  {
    RunSteps(s, t, 1);
    RunSteps(Next(s, Step(t)), t, 0);
  }

  lemma EnableCheck(s: State, t: nat)
    requires t < |s.pcs| && s.pcs[t] == CheckEnable
    ensures Run(s, Steps(t, 2)) == Decided(s, t, s.regs.external && !s.regs.bif)
  {
    RunSteps(s, t, 2);
    var next := Next(s, Step(t));
    if s.regs.external {
      FaultCheck(next, t);
      assert next.pcs[t := Saving] == s.pcs[t := Saving] && next.pcs[t := Idle] == s.pcs[t := Idle];
    } else {
      IdleStays(next, t, 1);
    }
  }

  lemma ChecksInARow(s: State, t: nat)
    requires t < |s.pcs| && s.pcs[t] == CheckMoe
    ensures Run(s, Steps(t, 3)) == Decided(s, t, MaySave(false, s.regs))
  {
    RunSteps(s, t, 3);
    var next := Next(s, Step(t));
    if s.regs.moe {
      IdleStays(next, t, 2);
    } else {
      EnableCheck(next, t);
      assert next.pcs[t := Saving] == s.pcs[t := Saving] && next.pcs[t := Idle] == s.pcs[t := Idle];
    }
  }

  /** A whole save in a row, with its storage operation: begun exactly then, and everything is as before it. */
  lemma UndisturbedSave(s: State, t: nat)
    requires t < |s.pcs| && s.pcs[t] == Idle
    ensures Run(s, [BeginSave(t)] + Steps(t, 3) + [StorageOperation(t), EndSave(t)])
         == if MaySave(s.lock, s.regs) then s.(storageLog := s.storageLog + [false]) else s
  {
    var end := [StorageOperation(t), EndSave(t)];
    RunAppend(s, [BeginSave(t)] + Steps(t, 3), end);
    UndisturbedSaveBegins(s, t);
    var begun := Run(s, [BeginSave(t)] + Steps(t, 3));
    assert end[1..] == [EndSave(t)] && end[1..][1..] == [];
    if MaySave(s.lock, s.regs) {
      var logged := Next(begun, StorageOperation(t));
      assert Run(begun, end) == Run(logged, [EndSave(t)]) == Next(logged, EndSave(t));
      assert Next(logged, EndSave(t)).pcs == s.pcs;
    } else {
      assert Run(s, end) == Run(s, [EndSave(t)]) == s;
    }
  }

  /** The steps of a call in a row are the call, and give the flag back. */
  lemma {:induction false} StepsAreCall(s: State, t: nat, n: nat)
    requires t < |s.pcs| && s.lock && n > ACCESSES - Index(s.pcs[t])
    requires s.pcs[t].Unlock? || Index(s.pcs[t]) < ACCESSES
    ensures Run(s, Steps(t, n))
         == s.(regs := EnableFrom(s.board, s.regs, s.pcs[t], NoInterrupts()).0, lock := false, pcs := s.pcs[t := Idle])
    decreases n
  {
    RunSteps(s, t, n);
    var next := Next(s, Step(t));
    if s.pcs[t].Unlock? {
      IdleStays(next, t, n - 1);
    } else {
      assert FireAll(s.regs, NoInterrupts()[Index(s.pcs[t])]) == s.regs;
      assert next.pcs[t := Idle] == s.pcs[t := Idle];
      StepsAreCall(next, t, n - 1);
    }
  }

  /** A call of Enable() in a row: refused without effect while the flag is taken, otherwise what the call does. */
  lemma UndisturbedCall(s: State, t: nat)
    requires t < |s.pcs| && s.pcs[t] == Idle
    ensures Run(s, [CallEnable(t)] + Steps(t, ACCESSES + 1))
         == if s.lock || s.regs.moe || !s.regs.external || s.regs.bif then s else s.(regs := s.regs.(moe := true))
  {
    var actions := [CallEnable(t)] + Steps(t, ACCESSES + 1);
    assert actions[1..] == Steps(t, ACCESSES + 1);
    var s1 := Next(s, CallEnable(t));
    assert Run(s, actions) == Run(s1, Steps(t, ACCESSES + 1));
    if s.lock {
      IdleStays(s1, t, ACCESSES + 1);
    } else {
      StepsAreCall(s1, t, ACCESSES + 1);
      UndisturbedEnableReleases(s.board, s.regs);
      assert s1.pcs[t := Idle] == s.pcs;
    }
  }

  // ----- A call with its interrupts is an interleaving --------------------------------------------

  function Fires(irqs: seq<Irq>): (a: seq<Action>)
    ensures |a| == |irqs|
  {
    seq(|irqs|, k requires 0 <= k < |irqs| => Fire(irqs[k]))
  }

  lemma {:induction false} FiresAreFired(s: State, irqs: seq<Irq>)
    ensures Run(s, Fires(irqs)) == s.(regs := FireAll(s.regs, irqs))
    decreases |irqs|
  {
    if |irqs| != 0 {
      assert Fires(irqs)[1..] == Fires(irqs[1..]);
      FiresAreFired(Next(s, Fire(irqs[0])), irqs[1..]);
    }
  }

  /** The steps of a call from `pc` on, each behind the interrupts in front of its access. */
  function Interleaved(b: Board, r: Regs, pc: Pc, t: nat, irqs: seq<seq<Irq>>): (a: seq<Action>)
    requires |irqs| == ACCESSES
    decreases ACCESSES - Index(pc)
  {
    if Index(pc) == ACCESSES then []
    else
      var (r', pc') := Access(b, FireAll(r, irqs[Index(pc)]), pc);
      Fires(irqs[Index(pc)]) + ([Step(t)] + Interleaved(b, r', pc', t, irqs))
  }

  lemma {:induction false} CallIsInterleaving(s: State, t: nat, irqs: seq<seq<Irq>>)
    requires t < |s.pcs| && |irqs| == ACCESSES && (s.pcs[t].Unlock? || Index(s.pcs[t]) < ACCESSES)
    ensures var (q, ok) := EnableFrom(s.board, s.regs, s.pcs[t], irqs);
            Run(s, Interleaved(s.board, s.regs, s.pcs[t], t, irqs)) == s.(regs := q, pcs := s.pcs[t := Unlock(ok)])
    decreases ACCESSES - Index(s.pcs[t])
  {
    var pc := s.pcs[t];
    if pc.Unlock? {
      assert s.pcs[t := pc] == s.pcs;
    } else {
      var fired := s.(regs := FireAll(s.regs, irqs[Index(pc)]));
      var (r', pc') := Access(s.board, fired.regs, pc);
      var rest := Interleaved(s.board, r', pc', t, irqs);
      FiredThenStep(s, t, irqs[Index(pc)], rest);
      CallIsInterleaving(Next(fired, Step(t)), t, irqs);
    }
  }

  lemma FiredThenStep(s: State, t: nat, irqs: seq<Irq>, rest: seq<Action>)
    requires Possible(s, Step(t))
    ensures Run(s, Fires(irqs) + ([Step(t)] + rest)) == Run(Next(s.(regs := FireAll(s.regs, irqs)), Step(t)), rest)
  {
    FiresAreFired(s, irqs);
    RunAppend(s, Fires(irqs), [Step(t)] + rest);
    StepThenRest(s.(regs := FireAll(s.regs, irqs)), t, rest);
  }

  lemma StepThenRest(s: State, t: nat, rest: seq<Action>)
    requires Possible(s, Step(t))
    ensures Run(s, [Step(t)] + rest) == Run(Next(s, Step(t)), rest)
  {
    assert ([Step(t)] + rest)[1..] == rest;
  }

  // ----- Who switches the outputs on ----------------------------------------------------------------

  /** No thread is inside Enable(), and none calls it. */
  predicate NoEnabling(s: State, actions: seq<Action>) {
    && (forall t :: 0 <= t < |s.pcs| ==> s.pcs[t] == Idle || s.pcs[t] == CheckMoe || Checked(s.pcs[t]))
    && forall a :: a in actions ==> !a.CallEnable?
  }

  /** Outputs that are off stay so until somebody calls Enable(), whatever the interrupts and the saves do. */
  lemma {:induction false} OffUntilEnable(s: State, actions: seq<Action>)
    requires !s.regs.moe && NoEnabling(s, actions)
    ensures !Run(s, actions).regs.moe
    decreases |actions|
  {
    if |actions| != 0 {
      assert !actions[0].CallEnable?;
      OffUntilEnable(if Possible(s, actions[0]) then Next(s, actions[0]) else s, actions[1..]);
    }
  }

  /** Disable(), Trip() and a lost external enable switch the outputs off at once, and they stay off. */
  lemma SwitchedOffStaysOff(s: State, irq: Irq, actions: seq<Action>)
    requires irq in {Trip, Disable, ExternalOff} && NoEnabling(s, actions)
    ensures !Run(s, [Fire(irq)] + actions).regs.moe
  {
    assert ([Fire(irq)] + actions)[1..] == actions;
    OffUntilEnable(Next(s, Fire(irq)), actions);
  }

  /** After a trip, an acknowledgement with the external enable present lets the next call release the outputs. */
  lemma AcknowledgedTripReleases(b: Board, r: Regs)
    ensures var t := Interrupt(r, Trip);
            && !EnableFrom(b, t, ReadMoe, NoInterrupts()).1
            && (EnableFrom(b, Interrupt(t, ClearFault), ReadMoe, NoInterrupts()).1 <==> r.external)
            && EnableFrom(b, Interrupt(Interrupt(t, ExternalOn), ClearFault), ReadMoe, NoInterrupts()).1
            && !EnableFrom(b, Interrupt(Interrupt(t, ExternalOff), ClearFault), ReadMoe, NoInterrupts()).1
  {
    var t := Interrupt(r, Trip);
    UndisturbedEnableReleases(b, t);
    UndisturbedEnableReleases(b, Interrupt(t, ClearFault));
    UndisturbedEnableReleases(b, Interrupt(Interrupt(t, ExternalOn), ClearFault));
    UndisturbedEnableReleases(b, Interrupt(Interrupt(t, ExternalOff), ClearFault));
  }

  /** The break input and a latched fault hold the outputs off; no thread has looked before the fault came. */
  predicate HeldOff(s: State) {
    && s.regs.bif && !s.regs.moe
    && forall t :: 0 <= t < |s.pcs| ==>
         Index(s.pcs[t]) <= Index(ReadFault) || Index(s.pcs[t]) == ACCESSES
  }

  lemma NextHeldOff(s: State, a: Action)
    requires HeldOff(s) && Possible(s, a) && a != Fire(ClearFault)
    ensures HeldOff(Next(s, a))
  {
  }

  /** Then they are off in every state, not even released for a moment, until ClearFault(). */
  lemma {:induction false} FaultNeverReleases(s: State, actions: seq<Action>)
    requires HeldOff(s) && Fire(ClearFault) !in actions
    ensures !Run(s, actions).regs.moe
    decreases |actions|
  {
    if |actions| != 0 {
      assert actions[0] != Fire(ClearFault);
      if Possible(s, actions[0]) {
        NextHeldOff(s, actions[0]);
      }
      FaultNeverReleases(if Possible(s, actions[0]) then Next(s, actions[0]) else s, actions[1..]);
    }
  }

  /** On the board the outputs are never on without the external enable, not even inside the window. */
  lemma {:induction false} BoardNeedsExternalEnable(s: State, actions: seq<Action>)
    requires s.board == Bcc && (s.regs.moe ==> s.regs.external)
    ensures var e := Run(s, actions);
            e.regs.moe ==> e.regs.external
    decreases |actions|
  {
    if |actions| != 0 {
      BoardNeedsExternalEnable(if Possible(s, actions[0]) then Next(s, actions[0]) else s, actions[1..]);
    }
  }

  /** The registers of one power stage behind PowerStageInterface. */
  class Stage {
    const board: Board
    var moe: bool
    var bif: bool
    var external: bool
    var enableLock: bool

    ghost function Registers(): (n: Regs)
      reads this
    {
      Regs(moe, bif, external)
    }

    ghost predicate Valid()
      reads this
    {
      (!external ==> bif) && (bif ==> !moe)
    }

    constructor (board: Board, external: bool)
      ensures this.board == board && Registers() == Regs(false, !external, external)
      ensures Valid() && !enableLock
    {
      this.board, moe, bif, this.external, enableLock := board, false, !external, external, false;
    }

    method Interrupts(irqs: seq<Irq>)
      modifies `moe, `bif, `external
      ensures Registers() == FireAll(old(Registers()), irqs)
      decreases |irqs|
    {
      if |irqs| > 0 {
        match irqs[0] {
          case Trip => moe, bif := false, true;
          case Disable => moe := false;
          case ExternalOff => moe, bif, external := false, true, false;
          case ExternalOn => external := true;
          case ClearFault => bif := !external;
        }
        Interrupts(irqs[1..]);
      }
    }

    /** PowerStageEnable() with the interrupts `irqs[k]` in front of its register access `k`. */
    method PowerStageEnable(irqs: seq<seq<Irq>>) returns (ok: bool)
      requires Valid() && |irqs| == ACCESSES
      modifies `moe, `bif, `external
      ensures (Registers(), ok) == EnableFrom(board, old(Registers()), ReadMoe, irqs)
      ensures Valid() && (ok && board == Bcc ==> moe)
    {
      EnableReturnsSafe(board, Registers(), ReadMoe, irqs);
      ghost var all := EnableFrom(board, Registers(), ReadMoe, irqs);
      Interrupts(irqs[0]);
      if moe {
        assert all == EnableFrom(board, Registers(), Unlock(true), irqs);
        return true;
      }
      assert all == EnableFrom(board, Registers(), ReadEnable, irqs);
      Interrupts(irqs[1]);
      if !external {
        assert all == EnableFrom(board, Registers(), Unlock(false), irqs);
        return false;
      }
      assert all == EnableFrom(board, Registers(), ReadFault, irqs);
      Interrupts(irqs[2]);
      if bif {
        assert all == EnableFrom(board, Registers(), Unlock(false), irqs);
        return false;
      }
      assert all == EnableFrom(board, Registers(), ReadBdtr, irqs);
      ok := SetMoe(irqs);
    }

    /** The read-modify-write that sets MOE, and what follows it. */
    method SetMoe(irqs: seq<seq<Irq>>) returns (ok: bool)
      requires |irqs| == ACCESSES
      modifies `moe, `bif, `external
      ensures (Registers(), ok) == EnableFrom(board, old(Registers()), ReadBdtr, irqs)
    {
      ghost var all := EnableFrom(board, Registers(), ReadBdtr, irqs);
      Interrupts(irqs[3]);
      assert all == EnableFrom(board, Registers(), WriteBdtr, irqs);
      Interrupts(irqs[4]);
      if external || board == Simulated {
        moe := true;
      }
      assert all == EnableFrom(board, Registers(), Recheck, irqs);
      ok := LookAgain(irqs);
    }

    /** A trip between the check and the write of MOE must not be undone. */
    method LookAgain(irqs: seq<seq<Irq>>) returns (ok: bool)
      requires |irqs| == ACCESSES
      modifies `moe, `bif, `external
      ensures (Registers(), ok) == EnableFrom(board, old(Registers()), Recheck, irqs)
    {
      ghost var all := EnableFrom(board, Registers(), Recheck, irqs);
      Interrupts(irqs[5]);
      if bif {
        assert all == EnableFrom(board, Registers(), ReadBdtrBack, irqs);
        Interrupts(irqs[6]);
        assert all == EnableFrom(board, Registers(), WriteBdtrBack, irqs);
        Interrupts(irqs[7]);
        moe := false;
        assert all == EnableFrom(board, Registers(), Unlock(false), irqs);
        return false;
      }
      assert all == EnableFrom(board, Registers(), ReadResult, irqs);
      Interrupts(irqs[8]);
      assert all == EnableFrom(board, Registers(), Unlock(moe || board == Simulated), irqs);
      return moe || board == Simulated;
    }

    /** PowerStageInterface::Enable(). */
    method Enable(irqs: seq<seq<Irq>>) returns (ok: bool)
      requires Valid() && |irqs| == ACCESSES
      modifies this
      ensures Valid() && enableLock == old(enableLock)
      ensures old(enableLock) ==> !ok && Registers() == old(Registers())
      ensures !old(enableLock) ==> (Registers(), ok) == EnableFrom(board, old(Registers()), ReadMoe, irqs)
      ensures !old(enableLock) && irqs == NoInterrupts() ==>
                ok == moe == (old(moe) || (external && !bif)) && external == old(external) && bif == old(bif)
    {
      UndisturbedEnableReleases(board, Registers());
      if enableLock {
        return false;
      }
      enableLock := true;
      ok := PowerStageEnable(irqs);
      enableLock := false;
    }

    method HoldOffEnable() returns (ok: bool)
      modifies `enableLock
      ensures enableLock && ok == !old(enableLock)
    {
      ok := !enableLock;
      enableLock := true;
    }

    method ReleaseEnable()
      modifies `enableLock
      ensures !enableLock
    {
      enableLock := false;
    }

    /** GetPowerStageState() */
    method GetState() returns (state: StageState)
      ensures state == StageEnabled <==> moe
      ensures state == StageBlocked <==> !moe && !external
      ensures state == StageFault <==> !moe && external && bif
      ensures state == StageDisabled <==> !moe && external && !bif
    {
      if moe {
        return StageEnabled;
      }
      if !external {
        return StageBlocked;
      }
      return if bif then StageFault else StageDisabled;
    }

    /** Begin of the save gate: granted exactly for a free flag and a disabled stage, and only then held. */
    method TryBeginSave() returns (granted: bool)
      modifies `enableLock
      ensures granted <==> !old(enableLock) && !moe && external && !bif
      ensures enableLock == (old(enableLock) || granted)
    {
      var held := HoldOffEnable();
      if !held {
        return false;
      }
      var state := GetState();
      if state != StageDisabled {
        ReleaseEnable();
        return false;
      }
      return true;
    }
  }
}
