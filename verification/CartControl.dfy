/**
 Torque source of a cart wheel drive: wheel command, limp-home from the pedals, ramp to zero.

 Times are in microseconds, torques and speeds are reals in the cart frame unless noted.
 */
module CartControl {
  import opened Units

  const PEDAL_DEADBAND := 0.05

  datatype Mode = Off | Vdc | LimpHome | Stopping

  datatype Contactor = Open | Precharge | Closed | Opening

  datatype Parameters = Parameters(reversed: bool, timeout: real, ramp: real, limpHome: real,
                                   standstill: real, share: real)

  /** A channel is the pedal travel 0 to 1. */
  datatype Pedals = Pedals(drive: (Option<real>, Option<real>), brake: (Option<real>, Option<real>),
                           drivePlausible: bool)

  datatype BatteryStatus = BatteryStatus(discharge: Option<real>, charge: Option<real>, contactor: Contactor)

  datatype BatteryLimits = NoLimits | Limits(drive: real, charge: real)

  datatype State = State(mode: Mode, torque: real, updated: bool, lastUpdate: int,
                         hasCommand: bool, commandAt: int, commandTorque: real,
                         hasPedals: bool, pedalsAt: int, pedals: Pedals,
                         hasBattery: bool, batteryAt: int, battery: BatteryStatus)

  /** `torque` is the shaft torque in the rotor direction. */
  datatype Output = Output(mode: Mode, torque: real, holdsEngagement: bool)

  // ----- Pedals and battery --------------------------------------------------------------

  function ClampTravel(channel: Option<real>): (t: real)
    ensures 0.0 <= t <= 1.0
  {
    if channel.Some? then Clamp(channel.value, 0.0, 1.0) else 0.0
  }

  /** The larger valid channel: one failed or released channel never releases the brake. */
  function BrakeTravel(p: Pedals): (t: real)
    ensures 0.0 <= t <= 1.0
    ensures p.brake.0.Some? ==> t >= Min(p.brake.0.value, 1.0)
    ensures p.brake.1.Some? ==> t >= Min(p.brake.1.value, 1.0)
    ensures t > 0.0 ==> (p.brake.0.Some? && p.brake.0.value >= t) || (p.brake.1.Some? && p.brake.1.value >= t)
  {
    Max(Max(0.0, ClampTravel(p.brake.0)), ClampTravel(p.brake.1))
  }

  /** The smaller channel; a failed one or an implausible pedal counts as released. */
  function DriveTravel(p: Pedals): (t: real)
    ensures 0.0 <= t <= 1.0
    ensures t > 0.0 ==>
              && p.drivePlausible && p.drive.0.Some? && p.drive.1.Some?
              && t <= p.drive.0.value && t <= p.drive.1.value
    ensures p.drivePlausible && p.drive.0.Some? && p.drive.1.Some? ==>
              t >= Min(Min(p.drive.0.value, p.drive.1.value), 1.0)
  {
    if !p.drivePlausible then 0.0 else Min(ClampTravel(p.drive.0), ClampTravel(p.drive.1))
  }

  function BrakeFade(p: Parameters, speed: real): (r: real) {
    if p.standstill > 0.0 then Min(Abs(speed) / p.standstill, 1.0) else 1.0
  }

  function Share(x: real, share: real): (r: real)
    ensures x >= 0.0 && 0.0 <= share <= 1.0 ==> 0.0 <= r <= x
  {
    x * share
  }

  /** Torque of the brake pedal against the motion. */
  function BrakeTorque(p: Parameters, pedals: Pedals, speed: real): (r: real) {
    Share(Share(p.limpHome, BrakeTravel(pedals)), BrakeFade(p, speed))
  }

  function PedalTorque(p: Parameters, pedals: Pedals, speed: real): (r: real) {
    if BrakeTravel(pedals) > PEDAL_DEADBAND then
      if speed > 0.0 then -BrakeTorque(p, pedals, speed)
      else if speed < 0.0 then BrakeTorque(p, pedals, speed)
      else 0.0
    else if DriveTravel(pedals) > PEDAL_DEADBAND then Share(p.limpHome, DriveTravel(pedals))
    else 0.0
  }

  lemma FadeRange(p: Parameters, speed: real)
    ensures 0.0 <= BrakeFade(p, speed) <= 1.0
    ensures p.standstill > 0.0 ==> BrakeFade(p, speed) <= Abs(speed) / p.standstill
  {
    if p.standstill > 0.0 {
      Quotient(Abs(speed), p.standstill);
    }
  }

  lemma Quotient(x: real, y: real)
    requires x >= 0.0 && y > 0.0
    ensures x / y >= 0.0
  {
  }

  /**
   The pedals never ask for more than the limp-home torque; a pressed brake never accelerates the
   cart and asks for nothing at standstill; without it the torque is forward, and only while both
   channels of a plausible drive pedal are pressed.
   */
  lemma PedalTorqueIsSafe(p: Parameters, pedals: Pedals, speed: real)
    requires p.limpHome >= 0.0
    ensures var t := PedalTorque(p, pedals, speed);
            && Abs(t) <= p.limpHome
            && (BrakeTravel(pedals) > PEDAL_DEADBAND ==>
                  (speed >= 0.0 ==> t <= 0.0) && (speed <= 0.0 ==> t >= 0.0))
            && (BrakeTravel(pedals) <= PEDAL_DEADBAND ==>
                  && t >= 0.0
                  && (t > 0.0 ==>
                        && pedals.drivePlausible && pedals.drive.0.Some? && pedals.drive.1.Some?
                        && pedals.drive.0.value > PEDAL_DEADBAND && pedals.drive.1.value > PEDAL_DEADBAND))
  {
    FadeRange(p, speed);
  }

  /** The brake fades out: below the standstill speed its torque shrinks with the speed. */
  lemma BrakeFadesOut(p: Parameters, pedals: Pedals, speed: real)
    requires p.limpHome >= 0.0 && p.standstill > 0.0 && BrakeTravel(pedals) > PEDAL_DEADBAND
    ensures Abs(PedalTorque(p, pedals, speed)) <= (Abs(speed) / p.standstill) * p.limpHome
  {
    var full := Share(p.limpHome, BrakeTravel(pedals));
    FadeRange(p, speed);
    FadeScales(full, BrakeFade(p, speed), Abs(speed) / p.standstill, p.limpHome);
    assert Abs(PedalTorque(p, pedals, speed)) <= full * BrakeFade(p, speed);
  }

  lemma FadeScales(full: real, fade: real, ratio: real, limit: real)
    requires 0.0 <= full <= limit && 0.0 <= fade <= ratio
    ensures full * fade <= ratio * limit
  {
    ProductOrder(full, fade, ratio);
    ProductOrder(ratio, full, limit);
    assert full * ratio == ratio * full;
  }

  /** Fully pressed pedals: the whole limp-home torque, forward or against the motion. */
  lemma FullTravel(p: Parameters, pedals: Pedals, speed: real)
    requires p.standstill > 0.0
    ensures pedals.drivePlausible && pedals.drive == (Some(1.0), Some(1.0)) && BrakeTravel(pedals) <= PEDAL_DEADBAND ==>
              PedalTorque(p, pedals, speed) == p.limpHome
    ensures BrakeTravel(pedals) == 1.0 && Abs(speed) >= p.standstill ==>
              PedalTorque(p, pedals, speed) == if speed > 0.0 then -p.limpHome else p.limpHome
  {
    if Abs(speed) >= p.standstill {
      QuotientAtLeastOne(Abs(speed), p.standstill);
    }
  }

  /** Without the brake the torque is in proportion to the travel of the drive pedal. */
  lemma DriveIsProportional(p: Parameters, pedals: Pedals, speed: real)
    requires BrakeTravel(pedals) <= PEDAL_DEADBAND
    ensures PedalTorque(p, pedals, speed)
         == if DriveTravel(pedals) > PEDAL_DEADBAND then p.limpHome * DriveTravel(pedals) else 0.0
  {
  }

  /** The brake torque is in proportion to its travel and, up to the standstill speed, to the speed. */
  lemma BrakeIsProportional(p: Parameters, pedals: Pedals, speed: real)
    requires p.standstill > 0.0 && BrakeTravel(pedals) > PEDAL_DEADBAND
    ensures var full := p.limpHome * BrakeTravel(pedals);
            var t := if Abs(speed) >= p.standstill then full * 1.0 else full * (Abs(speed) / p.standstill);
            PedalTorque(p, pedals, speed) == if speed > 0.0 then -t else if speed < 0.0 then t else 0.0
  {
    FadeIs(p, speed);
  }

  lemma FadeIs(p: Parameters, speed: real)
    requires p.standstill > 0.0
    ensures BrakeFade(p, speed) == if Abs(speed) >= p.standstill then 1.0 else Abs(speed) / p.standstill
  {
    if Abs(speed) >= p.standstill {
      QuotientAtLeastOne(Abs(speed), p.standstill);
    } else {
      QuotientBelowOne(Abs(speed), p.standstill);
    }
  }

  lemma QuotientBelowOne(x: real, y: real)
    requires 0.0 <= x < y
    ensures x / y < 1.0
  {
  }

  lemma QuotientAtLeastOne(x: real, y: real)
    requires x >= y > 0.0
    ensures x / y >= 1.0
  {
  }

  predicate Fresh(p: Parameters, received: bool, at: int, now: int) {
    received && Seconds(Elapsed(now, at)) <= p.timeout
  }

  function Battery(s: State, p: Parameters, now: int): (r: BatteryLimits) {
    var b := s.battery;
    if !Fresh(p, s.hasBattery, s.batteryAt, now) || b.discharge.None? || b.charge.None? then NoLimits
    else if b.contactor != Closed && b.contactor != Opening then Limits(0.0, 0.0)
    else Limits(Share(Max(b.discharge.value, 0.0), p.share), Share(Max(b.charge.value, 0.0), p.share))
  }

  /**
   Limits apply exactly with a fresh battery status and finite limits; they never exceed those of the
   BMS, and without a connected contactor they allow no battery current at all.
   */
  lemma BatteryLimitsAreSafe(s: State, p: Parameters, now: int)
    requires 0.0 <= p.share <= 1.0
    ensures var (b, l) := (s.battery, Battery(s, p, now));
            && (l.Limits? <==> Fresh(p, s.hasBattery, s.batteryAt, now) && b.discharge.Some? && b.charge.Some?)
            && (l.Limits? ==>
                  && 0.0 <= l.drive <= Max(b.discharge.value, 0.0) && 0.0 <= l.charge <= Max(b.charge.value, 0.0)
                  && (b.contactor == Closed || b.contactor == Opening ==>
                        && l.drive == p.share * Max(b.discharge.value, 0.0)
                        && l.charge == p.share * Max(b.charge.value, 0.0))
                  && (b.contactor == Open || b.contactor == Precharge ==> l == Limits(0.0, 0.0))
                  && (p.share == 1.0 && (b.contactor == Closed || b.contactor == Opening) ==>
                        l == Limits(Max(b.discharge.value, 0.0), Max(b.charge.value, 0.0))))
  {
    if s.battery.discharge.Some? && s.battery.charge.Some? {
      assert 0.0 <= Share(Max(s.battery.discharge.value, 0.0), p.share) <= Max(s.battery.discharge.value, 0.0);
      assert 0.0 <= Share(Max(s.battery.charge.value, 0.0), p.share) <= Max(s.battery.charge.value, 0.0);
    }
  }

  // ----- Update ----------------------------------------------------------------------------

  function ToCart(p: Parameters, x: real): (r: real) { if p.reversed then -x else x }

  predicate Standstill(p: Parameters, shaftSpeed: real) { Abs(ToCart(p, shaftSpeed)) <= p.standstill }

  function NextMode(s: State, p: Parameters, now: int, shaftSpeed: real): (r: Mode) {
    var command := Fresh(p, s.hasCommand, s.commandAt, now);
    var lost := if Fresh(p, s.hasPedals, s.pedalsAt, now) then LimpHome else Stopping;
    match s.mode
    case Off => if command then Vdc else Off
    case Vdc => if command then Vdc else lost
    case _ => if command && Standstill(p, shaftSpeed) then Vdc else lost
  }

  /** Longest change of the ramped torque since the last update. */
  function RampStep(s: State, p: Parameters, now: int): (r: real) {
    if s.updated then p.ramp * Seconds(Elapsed(now, s.lastUpdate)) else 0.0
  }

  function NextTorque(s: State, p: Parameters, now: int, shaftSpeed: real): (r: real) {
    var step := RampStep(s, p, now);
    match NextMode(s, p, now, shaftSpeed)
    case Off => 0.0
    case Vdc => s.commandTorque
    case LimpHome =>
      Clamp(PedalTorque(p, s.pedals, ToCart(p, shaftSpeed)), s.torque - step, s.torque + step)
    case Stopping => Clamp(0.0, s.torque - step, s.torque + step)
  }

  function AfterReset(s: State): (n: State) { s.(mode := Off, torque := 0.0) }

  function AfterUpdate(s: State, p: Parameters, now: int, shaftSpeed: real, engaged: bool): (n: State) {
    var u := s.(updated := true, lastUpdate := now);
    if !engaged then AfterReset(u)
    else u.(mode := NextMode(s, p, now, shaftSpeed), torque := NextTorque(s, p, now, shaftSpeed))
  }

  /** The result of the update that led to `s`. */
  function OutputOf(s: State, p: Parameters): (r: Output) {
    Output(s.mode, ToCart(p, s.torque), s.mode.LimpHome? || (s.mode.Stopping? && s.torque != 0.0))
  }

  function AfterBusLost(s: State): (n: State) { s.(hasCommand := false, hasPedals := false, hasBattery := false) }

  predicate Valid(s: State) { !s.mode.Off? ==> s.updated }

  lemma UpdateKeepsValid(s: State, p: Parameters, now: int, shaftSpeed: real, engaged: bool)
    ensures Valid(AfterUpdate(s, p, now, shaftSpeed, engaged))
  {
  }

  lemma StepOfUpdate(s: State, p: Parameters, now: int)
    requires p.ramp >= 0.0 && s.updated && 0 <= s.lastUpdate <= now < CLOCK_WRAP
    ensures RampStep(s, p, now) == p.ramp * Seconds(now - s.lastUpdate) >= 0.0
  {
    ProductOrder(p.ramp, 0.0, Seconds(now - s.lastUpdate));
  }

  /** Except for the wheel command itself, no change of the torque is steeper than the ramp. */
  lemma TorqueIsRamped(s: State, p: Parameters, now: int, shaftSpeed: real)
    requires p.ramp >= 0.0 && 0 <= s.lastUpdate <= now < CLOCK_WRAP
    ensures var u := AfterUpdate(s, p, now, shaftSpeed, true);
            u.mode.LimpHome? || u.mode.Stopping? ==> Abs(u.torque - s.torque) <= RampStep(s, p, now)
  {
    if s.updated {
      StepOfUpdate(s, p, now);
    }
  }

  /** The wheel command may act: it is fresh, and the cart has not lost it or stands. */
  predicate Commanded(s: State, p: Parameters, now: int, shaftSpeed: real) {
    && Fresh(p, s.hasCommand, s.commandAt, now)
    && (s.mode.Off? || s.mode.Vdc? || Abs(shaftSpeed) <= p.standstill)
  }

  /** The mode of an engaged update: the command acts if it may, otherwise fresh pedals drive and stale ones stop. */
  lemma ModeFollowsInputs(s: State, p: Parameters, now: int, shaftSpeed: real)
    ensures var n := AfterUpdate(s, p, now, shaftSpeed, true);
            var pedals := Fresh(p, s.hasPedals, s.pedalsAt, now);
            && (n.mode == Vdc <==> Commanded(s, p, now, shaftSpeed))
            && (n.mode == LimpHome <==> !Commanded(s, p, now, shaftSpeed) && !s.mode.Off? && pedals)
            && (n.mode == Stopping <==> !Commanded(s, p, now, shaftSpeed) && !s.mode.Off? && !pedals)
            && (n.mode == Vdc ==> n.torque == s.commandTorque)
            && (n.mode == Off ==> n.torque == 0.0)
    ensures AfterUpdate(s, p, now, shaftSpeed, false).mode == Off
    ensures AfterUpdate(s, p, now, shaftSpeed, false).torque == 0.0
  {
  }

  /** A bus-off counts as the loss of every input: the next update stops the cart and drops the battery limits. */
  lemma BusLossStops(s: State, p: Parameters, now: int, shaftSpeed: real)
    ensures var lost := AfterBusLost(s);
            && Battery(lost, p, now) == NoLimits
            && AfterUpdate(lost, p, now, shaftSpeed, true).mode == (if s.mode.Off? then Off else Stopping)
  {
  }

  // ----- After the wheel command was lost ------------------------------------------------------

  datatype Event =
    | Command(torque: Option<real>, at: int)
    | PedalState(state: Pedals, at: int)
    | Status(status: BatteryStatus, at: int)
    | BusLost
    | Tick(now: int, speed: real, engaged: bool)

  function AfterEvent(s: State, p: Parameters, e: Event): (n: State) {
    match e
    case Command(torque, at) =>
      s.(hasCommand := true, commandAt := at, commandTorque := if torque.Some? then torque.value else 0.0)
    case PedalState(state, at) => s.(hasPedals := true, pedalsAt := at, pedals := state)
    case Status(status, at) => s.(hasBattery := true, batteryAt := at, battery := status)
    case BusLost => AfterBusLost(s)
    case Tick(now, speed, engaged) => AfterUpdate(s, p, now, speed, engaged)
  }

  function Run(s: State, p: Parameters, events: seq<Event>): (n: State)
    decreases |events|
  {
    if |events| == 0 then s else Run(AfterEvent(s, p, events[0]), p, events[1..])
  }

  predicate Lost(s: State) { s.mode.LimpHome? || s.mode.Stopping? }

  predicate LostThroughout(s: State, p: Parameters, events: seq<Event>)
    decreases |events|
  {
    Lost(s) && (|events| == 0 || LostThroughout(AfterEvent(s, p, events[0]), p, events[1..]))
  }

  /** An update that ends the loss: the drive is off, or the wheel command is fresh at standstill. */
  predicate EndsLoss(s: State, p: Parameters, e: Event) {
    e.Tick? && (!e.engaged || (Fresh(p, s.hasCommand, s.commandAt, e.now) && Standstill(p, e.speed)))
  }

  predicate NoneEndsLoss(s: State, p: Parameters, events: seq<Event>)
    decreases |events|
  {
    |events| == 0 || (!EndsLoss(s, p, events[0]) && NoneEndsLoss(AfterEvent(s, p, events[0]), p, events[1..]))
  }

  /** An update of an engaged drive on a moving cart; what is received does not matter. */
  predicate Moves(p: Parameters, e: Event) { e.Tick? ==> e.engaged && !Standstill(p, e.speed) }

  predicate Moving(p: Parameters, events: seq<Event>) { forall i :: 0 <= i < |events| ==> Moves(p, events[i]) }

  predicate Timely(s: State, e: Event) { e.Tick? ==> 0 <= s.lastUpdate <= e.now < CLOCK_WRAP }

  predicate InTime(s: State, p: Parameters, events: seq<Event>)
    decreases |events|
  {
    |events| == 0 || (Timely(s, events[0]) && InTime(AfterEvent(s, p, events[0]), p, events[1..]))
  }

  /** From one state to the other the torque changes by no more than the ramp allows for the time between. */
  predicate RampedTo(s: State, n: State, p: Parameters) {
    s.lastUpdate <= n.lastUpdate && Abs(n.torque - s.torque) <= p.ramp * Seconds(n.lastUpdate - s.lastUpdate)
  }

  /** Over every run: the lost wheel command is out of use until exactly such an update. */
  lemma {:induction false} LossEndsIff(s: State, p: Parameters, events: seq<Event>)
    requires Lost(s)
    ensures LostThroughout(s, p, events) <==> NoneEndsLoss(s, p, events)
    decreases |events|
  {
    if |events| != 0 && !EndsLoss(s, p, events[0]) {
      LossEndsIff(AfterEvent(s, p, events[0]), p, events[1..]);
    } else if |events| != 0 {
      LostAtOnce(AfterEvent(s, p, events[0]), p, events[1..]);
    }
  }

  lemma LostAtOnce(s: State, p: Parameters, events: seq<Event>)
    requires !Lost(s)
    ensures !LostThroughout(s, p, events)
  {
  }

  lemma NoStepNoChange(s: State, n: State, p: Parameters)
    requires n.torque == s.torque && n.lastUpdate == s.lastUpdate
    ensures RampedTo(s, n, p)
  {
    assert p.ramp * Seconds(0) == 0.0;
  }

  lemma ReceivingChangesNoTorque(s: State, p: Parameters, e: Event)
    requires !e.Tick?
    ensures var n := AfterEvent(s, p, e);
            n.mode == s.mode && n.torque == s.torque && n.lastUpdate == s.lastUpdate && n.updated == s.updated
  {
  }

  lemma TickKeepsLoss(s: State, p: Parameters, now: int, speed: real)
    requires Lost(s) && !Standstill(p, speed)
    ensures var n := AfterUpdate(s, p, now, speed, true);
            Lost(n) && n.updated && n.lastUpdate == now
  {
  }

  lemma RampedBy(s: State, n: State, p: Parameters, now: int)
    requires s.updated && p.ramp >= 0.0 && 0 <= s.lastUpdate <= now < CLOCK_WRAP
    requires n.lastUpdate == now && Abs(n.torque - s.torque) <= RampStep(s, p, now)
    ensures RampedTo(s, n, p)
  {
    StepOfUpdate(s, p, now);
  }

  lemma MovingEndsNoLoss(s: State, p: Parameters, e: Event)
    requires Lost(s) && Valid(s) && p.ramp >= 0.0 && Timely(s, e) && Moves(p, e)
    ensures var n := AfterEvent(s, p, e);
            !EndsLoss(s, p, e) && Lost(n) && Valid(n) && RampedTo(s, n, p)
  {
    if e.Tick? {
      TickKeepsLoss(s, p, e.now, e.speed);
      TorqueIsRamped(s, p, e.now, e.speed);
      RampedBy(s, AfterEvent(s, p, e), p, e.now);
    } else {
      ReceivingChangesNoTorque(s, p, e);
      NoStepNoChange(s, AfterEvent(s, p, e), p);
    }
  }

  lemma RampAdds(s: State, m: State, n: State, p: Parameters)
    requires RampedTo(s, m, p) && RampedTo(m, n, p)
    ensures RampedTo(s, n, p)
  {
    Distribute(p.ramp, Seconds(m.lastUpdate - s.lastUpdate), Seconds(n.lastUpdate - m.lastUpdate));
  }

  /**
   On a moving cart a wheel command that was lost never comes back, whatever is received and however
   often: until the cart stands, the torque changes by no more than the ramp allows for the time passed.
   */
  lemma {:induction false} MovingCartIsRamped(s: State, p: Parameters, events: seq<Event>)
    requires Lost(s) && Valid(s) && p.ramp >= 0.0 && InTime(s, p, events) && Moving(p, events)
    ensures LostThroughout(s, p, events) && RampedTo(s, Run(s, p, events), p)
    decreases |events|
  {
    if |events| == 0 {
      assert p.ramp * Seconds(0) == 0.0;
    } else {
      var next := AfterEvent(s, p, events[0]);
      MovingEndsNoLoss(s, p, events[0]);
      MovingCartIsRamped(next, p, events[1..]);
      RampAdds(s, next, Run(next, p, events[1..]), p);
    }
  }

  // ----- Losing every input -----------------------------------------------------------------

  /** No command and no pedals are fresh at `now`. */
  predicate Silent(s: State, p: Parameters, now: int) {
    !Fresh(p, s.hasCommand, s.commandAt, now) && !Fresh(p, s.hasPedals, s.pedalsAt, now)
  }

  /** What is left of a torque after `micros` of the ramp. */
  function Decayed(torque: real, p: Parameters, micros: int): (r: real) {
    Max(0.0, Abs(torque) - p.ramp * Seconds(micros))
  }

  lemma SilentMode(s: State, p: Parameters, now: int, shaftSpeed: real)
    requires !s.mode.Off? && Silent(s, p, now)
    ensures NextMode(s, p, now, shaftSpeed) == Stopping
  {
  }

  /** Without inputs one update takes the torque down by exactly the ramp, and keeps its sign. */
  lemma SilentUpdate(s: State, p: Parameters, now: int, shaftSpeed: real)
    requires p.ramp >= 0.0 && Valid(s) && !s.mode.Off? && Silent(s, p, now) && 0 <= s.lastUpdate <= now < CLOCK_WRAP
    ensures var u := AfterUpdate(s, p, now, shaftSpeed, true);
            && u.mode == Stopping
            && Abs(u.torque) == Decayed(s.torque, p, now - s.lastUpdate)
            && (s.torque >= 0.0 ==> u.torque >= 0.0) && (s.torque <= 0.0 ==> u.torque <= 0.0)
  {
    SilentMode(s, p, now, shaftSpeed);
    StepOfUpdate(s, p, now);
    var step := RampStep(s, p, now);
    assert NextTorque(s, p, now, shaftSpeed) == Clamp(0.0, s.torque - step, s.torque + step);
  }

  /** Decaying in two parts is decaying in one: the spacing of the updates does not matter. */
  lemma DecayAdds(torque: real, rest: real, p: Parameters, first: int, second: int)
    requires p.ramp >= 0.0 && first >= 0 && second >= 0
    requires Abs(rest) == Decayed(torque, p, first)
    ensures Decayed(rest, p, second) == Decayed(torque, p, first + second)
  {
    Distribute(p.ramp, Seconds(first), Seconds(second));
    ProductOrder(p.ramp, 0.0, Seconds(first));
    ProductOrder(p.ramp, 0.0, Seconds(second));
  }

  // ----- From what is received to what is done -----------------------------------------------------

  /**
   A wheel command acts in an engaged update for exactly the timeout after its arrival, with its torque (zero
   for one that is not finite) in the direction of the rotor, unless the cart has lost an earlier one and moves.
   */
  lemma CommandActs(s: State, p: Parameters, torque: Option<real>, at: int, now: int, speed: real)
    requires 0 <= at <= now < CLOCK_WRAP
    ensures var n := AfterUpdate(AfterEvent(s, p, Command(torque, at)), p, now, speed, true);
            var x := if torque.Some? then torque.value else 0.0;
            && (n.mode == Vdc <==>
                  Seconds(now - at) <= p.timeout && (!Lost(s) || Abs(speed) <= p.standstill))
            && (n.mode == Vdc ==> OutputOf(n, p) == Output(Vdc, if p.reversed then -x else x, false))
  {
  }

  /** A pedal state drives in an update without a command that acts for exactly the timeout after its arrival. */
  lemma PedalsAct(s: State, p: Parameters, pedals: Pedals, at: int, now: int, speed: real)
    requires 0 <= at <= now < CLOCK_WRAP && !s.mode.Off? && !Commanded(s, p, now, speed)
    ensures var n := AfterUpdate(AfterEvent(s, p, PedalState(pedals, at)), p, now, speed, true);
            && (n.mode == LimpHome <==> Seconds(now - at) <= p.timeout) && n.pedals == pedals
            && OutputOf(n, p).holdsEngagement == (n.mode == LimpHome || n.torque != 0.0)
            && OutputOf(n, p).torque == (if p.reversed then -n.torque else n.torque)
  {
  }

  /** A battery status limits the current for exactly the timeout after its arrival. */
  lemma StatusActs(s: State, p: Parameters, status: BatteryStatus, at: int, now: int)
    requires 0 <= at <= now < CLOCK_WRAP
    ensures var n := AfterEvent(s, p, Status(status, at));
            && (Battery(n, p, now).Limits? <==>
                  Seconds(now - at) <= p.timeout && status.discharge.Some? && status.charge.Some?)
            && n.battery == status
  {
  }

  // ----- Limp-home --------------------------------------------------------------------------------

  /** An engaged update with no command that acts, fresh pedals, and the torque that these ask for. */
  predicate DrivenByPedals(s: State, p: Parameters, e: Event, target: real) {
    e.Tick? ==>
      && e.engaged && !Commanded(s, p, e.now, e.speed) && Fresh(p, s.hasPedals, s.pedalsAt, e.now)
      && PedalTorque(p, s.pedals, if p.reversed then -e.speed else e.speed) == target
  }

  predicate AllDrivenByPedals(s: State, p: Parameters, events: seq<Event>, target: real)
    decreases |events|
  {
    |events| == 0 ||
    (DrivenByPedals(s, p, events[0], target) && AllDrivenByPedals(AfterEvent(s, p, events[0]), p, events[1..], target))
  }

  predicate AnyTick(events: seq<Event>) { exists i :: 0 <= i < |events| && events[i].Tick? }

  /** From `s` to `n` the torque comes closer to the target by exactly the ramp. */
  predicate ApproachesTo(s: State, n: State, p: Parameters, target: real) {
    && s.lastUpdate <= n.lastUpdate
    && Abs(target - n.torque) == Decayed(target - s.torque, p, n.lastUpdate - s.lastUpdate)
  }

  lemma ClampApproaches(target: real, torque: real, step: real)
    requires step >= 0.0
    ensures Abs(target - Clamp(target, torque - step, torque + step)) == Max(0.0, Abs(target - torque) - step)
  {
  }

  lemma NoTimeNoChange(s: State, n: State, p: Parameters, target: real)
    requires n.torque == s.torque && n.lastUpdate == s.lastUpdate
    ensures ApproachesTo(s, n, p, target)
  {
    assert p.ramp * Seconds(0) == 0.0;
  }

  lemma PedalTick(s: State, p: Parameters, e: Event, target: real)
    requires e.Tick? && Valid(s) && !s.mode.Off? && p.ramp >= 0.0 && Timely(s, e) && DrivenByPedals(s, p, e, target)
    ensures var n := AfterEvent(s, p, e);
            n.mode == LimpHome && Valid(n) && ApproachesTo(s, n, p, target)
  {
    ModeFollowsInputs(s, p, e.now, e.speed);
    StepOfUpdate(s, p, e.now);
    var step := RampStep(s, p, e.now);
    assert NextTorque(s, p, e.now, e.speed) == Clamp(target, s.torque - step, s.torque + step);
    ClampApproaches(target, s.torque, step);
    RampApproaches(s, AfterEvent(s, p, e), p, e.now, target);
  }

  lemma RampApproaches(s: State, n: State, p: Parameters, now: int, target: real)
    requires p.ramp >= 0.0 && s.updated && 0 <= s.lastUpdate <= now < CLOCK_WRAP && n.lastUpdate == now
    requires Abs(target - n.torque) == Max(0.0, Abs(target - s.torque) - RampStep(s, p, now))
    ensures ApproachesTo(s, n, p, target)
  {
    StepOfUpdate(s, p, now);
  }

  lemma ApproachesAdd(s: State, m: State, n: State, p: Parameters, target: real)
    requires p.ramp >= 0.0 && ApproachesTo(s, m, p, target) && ApproachesTo(m, n, p, target)
    ensures ApproachesTo(s, n, p, target)
  {
    DecayAdds(target - s.torque, target - m.torque, p, m.lastUpdate - s.lastUpdate, n.lastUpdate - m.lastUpdate);
  }

  /**
   Limp-home over runs: while no command acts and the pedals are fresh at every update, each update is in
   limp-home, and the torque comes closer to what constant pedals ask for by exactly the ramp.
   */
  lemma {:induction false} PedalsTakeOver(s: State, p: Parameters, events: seq<Event>, target: real)
    requires Valid(s) && !s.mode.Off? && p.ramp >= 0.0
    requires InTime(s, p, events) && AllDrivenByPedals(s, p, events, target)
    ensures var n := Run(s, p, events);
            n.mode == (if AnyTick(events) then LimpHome else s.mode) && ApproachesTo(s, n, p, target)
    decreases |events|
  {
    if |events| == 0 {
      NoTimeNoChange(s, s, p, target);
    } else {
      var (e, rest) := (events[0], events[1..]);
      var m := AfterEvent(s, p, e);
      if e.Tick? {
        PedalTick(s, p, e, target);
      } else {
        ReceivingChangesNoTorque(s, p, e);
        NoTimeNoChange(s, m, p, target);
      }
      PedalsTakeOver(m, p, rest, target);
      ApproachesAdd(s, m, Run(m, p, rest), p, target);
      assert AnyTick(events) <==> e.Tick? || AnyTick(rest) by {
        TicksSplit(events);
      }
    }
  }

  lemma TicksSplit(events: seq<Event>)
    requires |events| > 0
    ensures AnyTick(events) <==> events[0].Tick? || AnyTick(events[1..])
  {
    var rest := events[1..];
    if i :| 0 <= i < |events| && events[i].Tick? {
      assert i > 0 ==> rest[i - 1].Tick?;
    }
    if i :| 0 <= i < |rest| && rest[i].Tick? {
      assert events[i + 1].Tick?;
    }
  }

  /** From `s` to `n` the ramp had the time for the whole way to the target. */
  predicate RampReaches(s: State, n: State, p: Parameters, target: real) {
    p.ramp * Seconds(n.lastUpdate - s.lastUpdate) >= Abs(target - s.torque)
  }

  lemma ReachedInTime(s: State, n: State, p: Parameters, target: real)
    requires ApproachesTo(s, n, p, target) && RampReaches(s, n, p, target)
    ensures n.torque == target
  {
  }

  /** So once the ramp has had the time, the torque is the one of the pedals. */
  lemma PedalTorqueIsReached(s: State, p: Parameters, events: seq<Event>, target: real)
    requires Valid(s) && !s.mode.Off? && p.ramp >= 0.0
    requires InTime(s, p, events) && AllDrivenByPedals(s, p, events, target)
    requires RampReaches(s, Run(s, p, events), p, target)
    ensures Run(s, p, events).torque == target
  {
    PedalsTakeOver(s, p, events, target);
    ReachedInTime(s, Run(s, p, events), p, target);
  }

  // ----- The control as an object ----------------------------------------------------------------

  class Control {
    var parameters: Parameters
    var mode: Mode
    var torque: real
    var updated: bool
    var lastUpdate: int
    var hasCommand: bool
    var commandAt: int
    var commandTorque: real
    var hasPedals: bool
    var pedalsAt: int
    var pedals: Pedals
    var hasBattery: bool
    var batteryAt: int
    var battery: BatteryStatus

    function View(): (n: State)
      reads this
    {
      State(mode, torque, updated, lastUpdate, hasCommand, commandAt, commandTorque,
            hasPedals, pedalsAt, pedals, hasBattery, batteryAt, battery)
    }

    constructor (p: Parameters)
      ensures parameters == p && Valid(View()) && View().mode.Off? && View().torque == 0.0
      ensures forall now :: Silent(View(), p, now)
    {
      parameters := p;
      mode, torque, updated, lastUpdate := Off, 0.0, false, 0;
      hasCommand, commandAt, commandTorque := false, 0, 0.0;
      hasPedals, pedalsAt := false, 0;
      pedals := Pedals((Some(0.0), Some(0.0)), (Some(0.0), Some(0.0)), false);
      hasBattery, batteryAt, battery := false, 0, BatteryStatus(Some(0.0), Some(0.0), Open);
    }

    method Configure(p: Parameters)
      modifies `parameters
      ensures parameters == p
    {
      parameters := p;
    }

    method Reset()
      modifies `mode, `torque
      ensures View() == AfterReset(old(View()))
    {
      mode := Off;
      torque := 0.0;
    }

    method OnWheelCommand(wheelTorque: Option<real>, now: int)
      modifies `hasCommand, `commandAt, `commandTorque
      ensures View() == old(View()).(hasCommand := true, commandAt := now,
                                     commandTorque := if wheelTorque.Some? then wheelTorque.value else 0.0)
    {
      hasCommand := true;
      commandAt := now;
      commandTorque := match wheelTorque case Some(t) => t case None => 0.0;
    }

    method OnPedalState(state: Pedals, now: int)
      modifies `hasPedals, `pedalsAt, `pedals
      ensures View() == old(View()).(hasPedals := true, pedalsAt := now, pedals := state)
    {
      hasPedals := true;
      pedalsAt := now;
      pedals := state;
    }

    method OnBatteryStatus(status: BatteryStatus, now: int)
      modifies `hasBattery, `batteryAt, `battery
      ensures View() == old(View()).(hasBattery := true, batteryAt := now, battery := status)
    {
      hasBattery := true;
      batteryAt := now;
      battery := status;
    }

    method OnBusLost()
      modifies `hasCommand, `hasPedals, `hasBattery
      ensures View() == AfterBusLost(old(View()))
    {
      hasCommand := false;
      hasPedals := false;
      hasBattery := false;
    }

    /** First switch of Update(): the mode. */
    method ChooseMode(now: int, speed: real)
      modifies `mode
      ensures mode == NextMode(old(View()), parameters, now, ToCart(parameters, speed))
    {
      var command := Fresh(parameters, hasCommand, commandAt, now);
      var pedalsFresh := Fresh(parameters, hasPedals, pedalsAt, now);
      match mode {
        case Off =>
          if command { mode := Vdc; }
        case Vdc =>
          if !command { mode := if pedalsFresh then LimpHome else Stopping; }
        case _ =>
          if command && Abs(speed) <= parameters.standstill {
            mode := Vdc;
          } else {
            mode := if pedalsFresh then LimpHome else Stopping;
          }
      }
    }

    /** Second switch of Update(): the torque of the chosen mode, `step` being the ramp. */
    method ChooseTorque(speed: real, step: real)
      modifies `torque
      ensures torque == match mode
                        case Off => 0.0
                        case Vdc => commandTorque
                        case LimpHome =>
                          Clamp(PedalTorque(parameters, pedals, speed), old(torque) - step, old(torque) + step)
                        case Stopping => Clamp(0.0, old(torque) - step, old(torque) + step)
    {
      match mode {
        case Off =>
          torque := 0.0;
        case Vdc =>
          torque := commandTorque;
        case _ =>
          var target := if mode.LimpHome? then PedalTorque(parameters, pedals, speed) else 0.0;
          torque := Clamp(target, torque - step, torque + step);
      }
    }

    method Update(now: int, shaftSpeed: real, engaged: bool) returns (output: Output)
      modifies `mode, `torque, `updated, `lastUpdate
      ensures View() == AfterUpdate(old(View()), parameters, now, shaftSpeed, engaged)
      ensures output == OutputOf(View(), parameters)
    {
      var step := RampStep(View(), parameters, now);
      updated := true;
      lastUpdate := now;
      if !engaged {
        Reset();
        return Output(Off, ToCart(parameters, 0.0), false);
      }
      var speed := ToCart(parameters, shaftSpeed);
      ChooseMode(now, speed);
      ChooseTorque(speed, step);
      output := Output(mode, ToCart(parameters, torque), mode.LimpHome? || (mode.Stopping? && torque != 0.0));
    }
  }
}
