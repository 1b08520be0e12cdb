/**
 Homing of the outer loop: a run pushes against the stop until it has stalled there long enough;
 that position becomes zero and is held until something else is asked for.

 The torque of the speed controller, the torque window and the speed are inputs of a step.
 */
module Homing {
  import opened Units

  const BLOCK_TIME := 0.1

  datatype Phase = Idle | Searching | Done | Fault

  datatype Mode = TorqueMode | SpeedMode | PositionMode

  datatype Setpoint = Setpoint(active: bool, mode: Mode, position: real)

  /** `dt` is the period of a step, `speed` the homing speed. */
  datatype Parameters = Parameters(dt: real, speed: real, torqueLimit: real)

  /** What SearchHome() works with: the torque it asks for, within `low` and `high`, and the speed. */
  datatype Drive = Drive(torque: real, low: real, high: real, speed: real)

  /** `restart`: new parameters; `requests`: the counter of StartHoming(). */
  datatype Input = Input(restart: bool, requests: nat, setpoint: Setpoint, drive: Drive)

  /** `reference` is the position that the loop regulates to; `run` lists whether the steps of the run stalled. */
  datatype State = State(phase: Phase, applied: nat, blocked: nat, hold: bool, held: real, reference: real,
                         run: seq<bool>)

  // ----- One step ------------------------------------------------------------------------------

  predicate InPositionMode(p: Setpoint) { p.active && p.mode.PositionMode? }

  /** At the torque bound in the direction of the run, and below half the homing speed. */
  predicate Stalled(p: Parameters, d: Drive) {
    var forward := p.speed > 0.0;
    var bound := if forward then Min(p.torqueLimit, d.high) else -Max(-p.torqueLimit, d.low);
    var push := if forward then d.torque else -d.torque;
    bound > 0.0 && push >= 0.99 * bound && Abs(d.speed) < 0.5 * Abs(p.speed)
  }

  /** LoadParameters() */
  function Restarted(s: State): (n: State) { s.(phase := Idle, hold := false) }

  function RequestTaken(s: State, i: Input): (n: State) {
    var n := s.(applied := i.requests);
    if InPositionMode(i.setpoint) then n.(phase := Searching, blocked := 0, hold := false, run := [])
    else n.(phase := Fault)
  }

  /** UpdateHoming() */
  function Updated(s: State, i: Input): (n: State) {
    var r := if i.requests != s.applied then RequestTaken(s, i) else s;
    var f := if r.phase.Searching? && !InPositionMode(i.setpoint) then r.(phase := Fault) else r;
    if !i.setpoint.active then f.(hold := false) else f
  }

  /** `n` steps cover the block time. */
  predicate LongEnough(p: Parameters, n: nat) { n as real * p.dt >= BLOCK_TIME }

  function Searched(s: State, p: Parameters, i: Input): (n: State) {
    var stalled := Stalled(p, i.drive);
    var n := s.(blocked := if stalled then s.blocked + 1 else 0, run := s.run + [stalled]);
    if !LongEnough(p, n.blocked) then n
    else n.(phase := Done, hold := true, held := i.setpoint.position, reference := 0.0)
  }

  function Regulated(s: State, i: Input): (n: State) {
    var n := if s.hold && i.setpoint.position != s.held then s.(hold := false) else s;
    n.(reference := if n.hold then 0.0 else i.setpoint.position)
  }

  function Next(s: State, p: Parameters, i: Input): (n: State) {
    var u := Updated(if i.restart then Restarted(s) else s, i);
    if !InPositionMode(i.setpoint) then u
    else if u.phase.Searching? then Searched(u, p, i)
    else Regulated(u, i)
  }

  /** A stall pushes the way the run goes, at nearly the bound, and hardly moves. */
  lemma StallPushesForward(p: Parameters, d: Drive)
    ensures p.speed > 0.0 ==>
              (Stalled(p, d) <==>
                 && 0.0 < Min(p.torqueLimit, d.high) && d.torque >= 0.99 * Min(p.torqueLimit, d.high)
                 && Abs(d.speed) < 0.5 * p.speed)
    ensures p.speed < 0.0 ==>
              (Stalled(p, d) <==>
                 && Max(-p.torqueLimit, d.low) < 0.0 && d.torque <= 0.99 * Max(-p.torqueLimit, d.low)
                 && Abs(d.speed) < -0.5 * p.speed)
    ensures p.speed == 0.0 ==> !Stalled(p, d)
  {
  }

  /** Runs in both directions stall alike: everything mirrored is a stall too. */
  lemma StallIsSymmetric(p: Parameters, d: Drive)
    requires p.speed != 0.0
    ensures Stalled(p, d) <==> Stalled(p.(speed := -p.speed), Drive(-d.torque, -d.high, -d.low, -d.speed))
  {
  }

  // ----- What every step keeps --------------------------------------------------------------------

  /** The last `n` steps of the run stalled. */
  predicate StalledAtEnd(run: seq<bool>, n: nat) {
    n <= |run| && forall k :: |run| - n <= k < |run| ==> run[k]
  }

  predicate Inv(s: State, p: Parameters) {
    && (s.phase.Searching? ==> StalledAtEnd(s.run, s.blocked) && !LongEnough(p, s.blocked))
    && (s.phase.Done? ==> StalledAtEnd(s.run, s.blocked) && LongEnough(p, s.blocked))
  }

  lemma NotAtOnce(p: Parameters)
    ensures !LongEnough(p, 0)
  {
  }

  lemma UpdatedKeepsInv(s: State, p: Parameters, i: Input)
    requires Inv(s, p)
    ensures var u := Updated(if i.restart then Restarted(s) else s, i);
            Inv(u, p) && (u.phase.Searching? ==> InPositionMode(i.setpoint))
  {
    NotAtOnce(p);
  }

  lemma SearchedKeepsInv(s: State, p: Parameters, i: Input)
    requires Inv(s, p) && s.phase.Searching?
    ensures Inv(Searched(s, p, i), p)
  {
    NotAtOnce(p);
    var n := Searched(s, p, i);
    assert n.blocked > 0 ==> n.blocked == s.blocked + 1 && n.run == s.run + [true];
  }

  lemma NextKeepsInv(s: State, p: Parameters, i: Input)
    requires Inv(s, p)
    ensures Inv(Next(s, p, i), p)
    ensures Next(s, p, i).phase.Searching? ==> InPositionMode(i.setpoint)
  {
    UpdatedKeepsInv(s, p, i);
    var u := Updated(if i.restart then Restarted(s) else s, i);
    if InPositionMode(i.setpoint) && u.phase.Searching? {
      SearchedKeepsInv(u, p, i);
    }
  }

  /** Exactly when a step enters Done: it stalls while searching in the position mode, long enough in a row. */
  lemma DoneIffStalledLongEnough(s: State, p: Parameters, i: Input)
    requires Inv(s, p) && !s.phase.Done?
    ensures var n := Next(s, p, i);
            var u := Updated(if i.restart then Restarted(s) else s, i);
            n.phase.Done? <==>
              && InPositionMode(i.setpoint) && u.phase.Searching? && Stalled(p, i.drive)
              && LongEnough(p, u.blocked + 1)
  {
    NotAtOnce(p);
  }

  function Run(s: State, p: Parameters, inputs: seq<Input>): (n: State)
    decreases |inputs|
  {
    if |inputs| == 0 then s else Run(Next(s, p, inputs[0]), p, inputs[1..])
  }

  lemma {:induction false} RunKeepsInv(s: State, p: Parameters, inputs: seq<Input>)
    requires Inv(s, p)
    ensures Inv(Run(s, p, inputs), p)
    ensures |inputs| > 0 && Run(s, p, inputs).phase.Searching? ==> InPositionMode(inputs[|inputs| - 1].setpoint)
    decreases |inputs|
  {
    if |inputs| != 0 {
      NextKeepsInv(s, p, inputs[0]);
      RunKeepsInv(Next(s, p, inputs[0]), p, inputs[1..]);
    }
  }

  /** A run is found only after steps that stalled in a row, in that run, for the block time. */
  lemma FoundOnlyAfterStall(s: State, p: Parameters, inputs: seq<Input>)
    requires s.phase.Idle? && Run(s, p, inputs).phase.Done?
    ensures var n := Run(s, p, inputs);
            StalledAtEnd(n.run, n.blocked) && LongEnough(p, n.blocked)
  {
    RunKeepsInv(s, p, inputs);
  }

  /** While searching, the loop is in the engaged position mode; leaving it ends the run in Fault. */
  lemma SearchingOnlyInPositionMode(s: State, p: Parameters, inputs: seq<Input>, i: Input)
    requires s.phase.Idle?
    ensures var n := Run(s, p, inputs + [i]);
            n.phase.Searching? ==> i.setpoint.active && i.setpoint.mode.PositionMode?
    ensures Run(s, p, inputs).phase.Searching? && !i.restart
            && !(i.setpoint.active && i.setpoint.mode.PositionMode?) ==>
              Next(Run(s, p, inputs), p, i).phase.Fault?
  {
    RunKeepsInv(s, p, inputs + [i]);
  }

  /** A restart forgets a run that no new request asks for, and a request outside the position mode is refused. */
  lemma RestartsAndRefusals(s: State, p: Parameters, i: Input)
    ensures i.restart && i.requests == s.applied ==> Next(s, p, i).phase.Idle? && !Next(s, p, i).hold
    ensures i.requests != s.applied && !(i.setpoint.active && i.setpoint.mode.PositionMode?) ==>
              Next(s, p, i).phase.Fault?
    ensures i.requests != s.applied && i.setpoint.active && i.setpoint.mode.PositionMode? ==>
              Next(s, p, i).phase.Searching? || Next(s, p, i).phase.Done?
    ensures Next(s, p, i).applied == i.requests
  {
  }

  /** Every step is in the position mode, stalls, and brings no other request than the first one. */
  predicate Blocked(p: Parameters, inputs: seq<Input>, requests: nat) {
    forall k :: 0 <= k < |inputs| ==>
      && !inputs[k].restart && inputs[k].requests == requests
      && InPositionMode(inputs[k].setpoint) && Stalled(p, inputs[k].drive)
  }

  lemma LongerIsLongEnough(p: Parameters, m: nat, n: nat)
    requires p.dt >= 0.0 && m <= n && LongEnough(p, m)
    ensures LongEnough(p, n)
  {
    assert (n - m) as real * p.dt >= 0.0;
  }

  lemma {:induction false} BlockedSteps(s: State, p: Parameters, inputs: seq<Input>)
    requires Inv(s, p) && s.phase.Searching? && p.dt >= 0.0 && Blocked(p, inputs, s.applied)
    ensures var n := Run(s, p, inputs);
            n.phase == (if LongEnough(p, s.blocked + |inputs|) then Done else Searching)
    decreases |inputs|
  {
    if |inputs| != 0 {
      var n := Next(s, p, inputs[0]);
      assert Blocked(p, inputs[1..], s.applied);
      NextKeepsInv(s, p, inputs[0]);
      if n.phase.Searching? {
        BlockedSteps(n, p, inputs[1..]);
      } else {
        LongerIsLongEnough(p, s.blocked + 1, s.blocked + |inputs|);
        DoneStays(n, p, inputs[1..]);
      }
    }
  }

  lemma {:induction false} DoneStays(s: State, p: Parameters, inputs: seq<Input>)
    requires s.phase.Done? && Blocked(p, inputs, s.applied)
    ensures Run(s, p, inputs).phase.Done?
    decreases |inputs|
  {
    if |inputs| != 0 {
      assert Blocked(p, inputs[1..], s.applied);
      DoneStays(Next(s, p, inputs[0]), p, inputs[1..]);
    }
  }

  lemma RequestSearches(s: State, p: Parameters, inputs: seq<Input>)
    requires Inv(s, p) && p.dt >= 0.0 && |inputs| > 0
    requires inputs[0].requests != s.applied && Blocked(p, inputs, inputs[0].requests)
    ensures Run(s, p, inputs).phase == if LongEnough(p, |inputs|) then Done else Searching
  {
    var n := Next(s, p, inputs[0]);
    NextKeepsInv(s, p, inputs[0]);
    assert Blocked(p, inputs[1..], n.applied);
    if n.phase.Searching? {
      BlockedSteps(n, p, inputs[1..]);
    } else {
      LongerIsLongEnough(p, 1, |inputs|);
      DoneStays(n, p, inputs[1..]);
    }
  }

  /** A request in the position mode that meets the stop finds home after exactly the steps of the block time. */
  lemma RequestFindsHome(s: State, p: Parameters, inputs: seq<Input>, time: real)
    requires Inv(s, p) && p.dt >= 0.0 && |inputs| > 0 && time == |inputs| as real * p.dt
    requires inputs[0].requests != s.applied && Blocked(p, inputs, inputs[0].requests)
    ensures Run(s, p, inputs).phase == if time >= BLOCK_TIME then Done else Searching
  {
    RequestSearches(s, p, inputs);
  }

  // ----- Holding the new home -------------------------------------------------------------------------

  /** The step leaves the held zero alone. */
  predicate KeepsHold(s: State, i: Input) {
    && !i.restart && i.setpoint.active
    && (i.requests != s.applied ==> !InPositionMode(i.setpoint))  // a request is refused
    && (InPositionMode(i.setpoint) ==> i.setpoint.position == s.held)
  }

  /** One step, both ways: zero stays held exactly if nothing else is asked for. */
  lemma HoldStep(s: State, p: Parameters, i: Input)
    requires s.hold && s.phase != Searching && p.dt < BLOCK_TIME
    ensures var n := Next(s, p, i);
            && (n.hold <==> KeepsHold(s, i))
            && (n.hold ==> n.held == s.held && n.phase != Searching)
            && (n.hold && InPositionMode(i.setpoint) ==> n.reference == 0.0)
  {
    var u := Updated(if i.restart then Restarted(s) else s, i);
    if InPositionMode(i.setpoint) && u.phase.Searching? {
      assert Searched(u, p, i).blocked <= 1;
      NotAtOnce(p);
      assert !LongEnough(p, Searched(u, p, i).blocked);
    }
  }

  predicate AllKeepHold(s: State, p: Parameters, inputs: seq<Input>)
    decreases |inputs|
  {
    |inputs| == 0 || (KeepsHold(s, inputs[0]) && AllKeepHold(Next(s, p, inputs[0]), p, inputs[1..]))
  }

  /** After a run found home, zero is held for as long as nothing else is asked for. */
  lemma {:induction false} HoldsZero(s: State, p: Parameters, inputs: seq<Input>)
    requires s.hold && s.phase != Searching && p.dt < BLOCK_TIME && AllKeepHold(s, p, inputs)
    ensures var n := Run(s, p, inputs);
            && n.hold && n.held == s.held && n.phase != Searching
            && (|inputs| > 0 && InPositionMode(inputs[|inputs| - 1].setpoint) ==> n.reference == 0.0)
    decreases |inputs|
  {
    if |inputs| != 0 {
      HoldStep(s, p, inputs[0]);
      HoldsZero(Next(s, p, inputs[0]), p, inputs[1..]);
    }
  }

  predicate HeldThroughout(s: State, p: Parameters, inputs: seq<Input>)
    decreases |inputs|
  {
    s.hold && (|inputs| == 0 || HeldThroughout(Next(s, p, inputs[0]), p, inputs[1..]))
  }

  /** Over every run, both ways: a held zero is given up by exactly the steps that ask for something else. */
  lemma {:induction false} HoldEndsIff(s: State, p: Parameters, inputs: seq<Input>)
    requires s.hold && s.phase != Searching && p.dt < BLOCK_TIME
    ensures HeldThroughout(s, p, inputs) <==> AllKeepHold(s, p, inputs)
    decreases |inputs|
  {
    if |inputs| != 0 {
      HoldStep(s, p, inputs[0]);
      if KeepsHold(s, inputs[0]) {
        HoldEndsIff(Next(s, p, inputs[0]), p, inputs[1..]);
      }
    }
  }

  lemma FindingHomeHolds(s: State, p: Parameters, i: Input)
    requires !s.phase.Done? && Next(s, p, i).phase.Done?
    ensures var n := Next(s, p, i);
            n.hold && n.held == i.setpoint.position && n.reference == 0.0
  {
  }

  /**
   From the start of operation: once a step has found home, the setpoint of that step stands for zero,
   and zero is held over any further run exactly while nothing else is asked for.
   */
  lemma HomeIsHeld(s: State, p: Parameters, before: seq<Input>, found: Input, after: seq<Input>)
    requires s.phase.Idle? && p.dt < BLOCK_TIME
    requires var b := Run(s, p, before);
             !b.phase.Done? && Next(b, p, found).phase.Done?
    ensures var d := Next(Run(s, p, before), p, found);
            && StalledAtEnd(d.run, d.blocked) && LongEnough(p, d.blocked)
            && (HeldThroughout(d, p, after) <==> AllKeepHold(d, p, after))
            && (AllKeepHold(d, p, after) ==>
                  var n := Run(d, p, after);
                  && n.hold && n.held == found.setpoint.position
                  && ((|after| > 0 ==> InPositionMode(after[|after| - 1].setpoint)) ==> n.reference == 0.0))
  {
    var b := Run(s, p, before);
    var d := Next(b, p, found);
    RunKeepsInv(s, p, before);
    NextKeepsInv(b, p, found);
    FindingHomeHolds(b, p, found);
    HoldEndsIff(d, p, after);
    if AllKeepHold(d, p, after) {
      HoldsZero(d, p, after);
    }
  }

  // ----- Following the setpoint -----------------------------------------------------------------------

  lemma {:induction false} RunOneMore(s: State, p: Parameters, inputs: seq<Input>, i: Input)
    ensures Run(s, p, inputs + [i]) == Next(Run(s, p, inputs), p, i)
    decreases |inputs|
  {
    var all := inputs + [i];
    if |inputs| == 0 {
      assert all == [i] && all[1..] == [];
    } else {
      assert all[0] == inputs[0] && all[1..] == inputs[1..] + [i];
      RunOneMore(Next(s, p, inputs[0]), p, inputs[1..], i);
    }
  }

  /** Over every run: a step in the position mode regulates to zero while that is held, else to the setpoint. */
  lemma ReferenceFollows(s: State, p: Parameters, before: seq<Input>, i: Input)
    requires s.phase.Idle? && i.setpoint.active && i.setpoint.mode.PositionMode?
    ensures var n := Run(s, p, before + [i]);
            && (n.hold ==> n.reference == 0.0 && n.held == i.setpoint.position)
            && (!n.hold && !n.phase.Searching? ==> n.reference == i.setpoint.position)
  {
    RunOneMore(s, p, before, i);
    RunKeepsInv(s, p, before);
    NoHoldWhileSearching(s, p, before);
    NextReference(Run(s, p, before), p, i);
  }

  lemma NextReference(s: State, p: Parameters, i: Input)
    requires InPositionMode(i.setpoint) && (s.phase.Searching? ==> !s.hold)
    ensures var n := Next(s, p, i);
            && (n.hold ==> n.reference == 0.0 && n.held == i.setpoint.position)
            && (!n.hold && !n.phase.Searching? ==> n.reference == i.setpoint.position)
            && (n.phase.Searching? ==> !n.hold)
  {
  }

  lemma {:induction false} NoHoldWhileSearching(s: State, p: Parameters, inputs: seq<Input>)
    requires s.phase.Searching? ==> !s.hold
    ensures Run(s, p, inputs).phase.Searching? ==> !Run(s, p, inputs).hold
    decreases |inputs|
  {
    if |inputs| != 0 {
      NoHoldWhileSearching(Next(s, p, inputs[0]), p, inputs[1..]);
    }
  }

  /** No homing run is ever asked for. */
  predicate NothingRequested(s: State, inputs: seq<Input>) {
    forall k :: 0 <= k < |inputs| ==> inputs[k].requests == s.applied
  }

  lemma {:induction false} NothingIsHeld(s: State, p: Parameters, inputs: seq<Input>)
    requires s.phase.Idle? && !s.hold && NothingRequested(s, inputs)
    ensures Run(s, p, inputs).phase.Idle? && !Run(s, p, inputs).hold
    decreases |inputs|
  {
    if |inputs| != 0 {
      assert inputs[0].requests == s.applied;
      NothingIsHeld(Next(s, p, inputs[0]), p, inputs[1..]);
    }
  }

  /** A loop that is never asked to home follows every setpoint of the position mode. */
  lemma FollowsWithoutHoming(s: State, p: Parameters, before: seq<Input>, i: Input)
    requires s.phase.Idle? && !s.hold && NothingRequested(s, before + [i]) && InPositionMode(i.setpoint)
    ensures Run(s, p, before + [i]).reference == i.setpoint.position
  {
    NothingIsHeld(s, p, before + [i]);
    ReferenceFollows(s, p, before, i);
  }

  /** The step that gives a held zero up for another setpoint regulates to that one. */
  lemma NewSetpointIsFollowed(s: State, p: Parameters, inputs: seq<Input>, i: Input)
    requires s.hold && s.phase != Searching && p.dt < BLOCK_TIME && AllKeepHold(s, p, inputs)
    requires InPositionMode(i.setpoint) && !i.restart && i.requests == Run(s, p, inputs).applied
    ensures var n := Run(s, p, inputs + [i]);
            && (i.setpoint.position == s.held ==> n.hold && n.reference == 0.0)
            && (i.setpoint.position != s.held ==> !n.hold && n.reference == i.setpoint.position)
  {
    HoldsZero(s, p, inputs);
    RunOneMore(s, p, inputs, i);
    HoldStep(Run(s, p, inputs), p, i);
    NextReference(Run(s, p, inputs), p, i);
  }

  // ----- The homing part of the loop as an object -------------------------------------------------------

  class Loop {
    var phase: Phase
    var applied: nat
    var blocked: nat
    var hold: bool
    var held: real
    var reference: real
    ghost var run: seq<bool>

    ghost function View(): (n: State)
      reads this
    {
      State(phase, applied, blocked, hold, held, reference, run)
    }

    constructor ()
      ensures View() == State(Idle, 0, 0, false, 0.0, 0.0, [])
    {
      phase, applied, blocked, hold, held, reference, run := Idle, 0, 0, false, 0.0, 0.0, [];
    }

    method LoadParameters()
      modifies `phase, `hold
      ensures View() == Restarted(old(View()))
    {
      phase := Idle;
      hold := false;
    }

    method TakeHomingRequest(i: Input)
      modifies `phase, `blocked, `hold, `run
      ensures View() == RequestTaken(old(View()), i).(applied := old(applied))
    {
      if !i.setpoint.active || i.setpoint.mode != PositionMode {
        phase := Fault;
        return;
      }
      phase := Searching;
      blocked := 0;
      hold := false;
      run := [];
    }

    method UpdateHoming(i: Input)
      modifies `phase, `applied, `blocked, `hold, `run
      ensures View() == Updated(old(View()), i)
    {
      if i.requests != applied {
        applied := i.requests;
        TakeHomingRequest(i);
      }
      if phase == Searching && !InPositionMode(i.setpoint) {
        phase := Fault;
      }
      if !i.setpoint.active {
        hold := false;
      }
    }

    method SearchHome(p: Parameters, i: Input)
      modifies this
      ensures View() == Searched(old(View()), p, i)
    {
      var stalled := Stalled(p, i.drive);
      blocked := if stalled then blocked + 1 else 0;
      run := run + [stalled];
      if !LongEnough(p, blocked) {
        return;
      }
      phase := Done;
      hold := true;
      held := i.setpoint.position;
      reference := 0.0;
    }

    method PositionReference(p: Parameters, i: Input)
      modifies this
      ensures View() == if old(phase) == Searching then Searched(old(View()), p, i) else Regulated(old(View()), i)
    {
      if phase == Searching {
        SearchHome(p, i);
        return;
      }
      if hold && i.setpoint.position != held {
        hold := false;
      }
      reference := if hold then 0.0 else i.setpoint.position;
    }

    method Step(p: Parameters, i: Input)
      modifies this
      ensures View() == Next(old(View()), p, i)
    {
      if i.restart {
        LoadParameters();
      }
      UpdateHoming(i);
      if i.setpoint.active && i.setpoint.mode == PositionMode {
        PositionReference(p, i);
      }
    }
  }
}
