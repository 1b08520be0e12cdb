/**
 Engagement of a drive: readiness, re-arm, emergency stop, startup aid, settings, cart and e-bike.

 One Spin() dispatches the received messages and commands and then runs its parts in order. Trips
 and faults of the power stage may come before every part. The startup aid is known by its
 contract only: it may switch the outputs while it is active, and they are off when it ends.
 */
module DriveNode {
  import opened Units
  import CartControl
  import EbikeControl
  import LiveTuning

  // ----- State -------------------------------------------------------------------------------

  datatype Stage = Enabled | Off(fault: bool)

  datatype Source = FromBus(id: int) | FromCart(torque: real) | FromEbike(torque: real)

  /** `engages` counts the engagements before the setpoint was accepted. */
  datatype Setpoint = NoSetpoint | Setpoint(source: Source, engages: nat)

  /** What the outer loop works on. */
  datatype Outer = Outer(active: bool, setpoint: Setpoint)

  datatype Engagement = Engagement(engaged: bool, rearm: bool, requested: bool, emergency: bool,
                                   lastReadiness: int, engages: nat)

  datatype Demand = Demand(setpoint: Setpoint, at: int, outer: Outer)

  /** A restart of the controller: the stage that it found, and whether the hardware took the settings. */
  datatype Restarting = Restarting(stage: Stage, accepted: bool)

  /**
   `startup` is IsActive() of the startup aid, `startupSeen` that the drive saw it active. `running`
   says that the cycle source of the motor runs; `restarts` lists the restarts of the controller.
   */
  datatype Power = Power(stage: Stage, tripped: bool, startup: bool, startupSeen: bool, running: bool,
                         restarts: seq<Restarting>)

  datatype Cart = Cart(control: CartControl.State, parameters: CartControl.Parameters)

  datatype Local = Local(control: EbikeControl.State, parameters: EbikeControl.Parameters, engage: bool, torque: real)

  datatype State = State(e: Engagement, d: Demand, p: Power, settings: LiveTuning.Settings, timeout: nat,
                         cart: Cart, ebike: Local)

  /** `local` says that an e-bike control decides; the functions take parameters from the registers. */
  datatype Config = Config(local: bool,
                           timeoutOf: LiveTuning.Registers -> nat,
                           cartOf: LiveTuning.Registers -> CartControl.Parameters,
                           ebikeOf: LiveTuning.Registers -> EbikeControl.Parameters)

  // ----- Power stage ----------------------------------------------------------------------------

  function SwitchedOff(stage: Stage): (r: Stage) { if stage.Enabled? then Off(false) else stage }

  function FaultCleared(stage: Stage): (r: Stage) { if stage.Enabled? then stage else Off(false) }

  /** What the hardware or the control cycle may do at any moment. */
  datatype Disturbance = Quiet | Trip | BreakInput | EnableLost

  function Disturbed(s: State, d: Disturbance): (n: State) {
    match d
    case Quiet => s
    case Trip => s.(p := s.p.(stage := Off(true), tripped := true))
    case BreakInput => s.(p := s.p.(stage := Off(true)))
    case EnableLost => s.(p := s.p.(stage := SwitchedOff(s.p.stage)))
  }

  // ----- Setpoint and engagement -------------------------------------------------------------------

  const NOTHING := Outer(false, NoSetpoint)

  function WithSetpoint(s: State, source: Source, now: int): (n: State) {
    s.(d := s.d.(setpoint := Setpoint(source, s.e.engages), at := now))
  }

  function Disengaged(s: State): (n: State) {
    s.(e := s.e.(engaged := false),
       d := s.d.(setpoint := NoSetpoint, outer := NOTHING),
       cart := s.cart.(control := CartControl.AfterReset(s.cart.control)),
       p := if s.e.engaged || !s.p.startup then s.p.(stage := SwitchedOff(s.p.stage)) else s.p)
  }

  /** LoadParameters(): the e-bike only while disengaged. */
  function WithParameters(s: State, c: Config, r: LiveTuning.Registers): (n: State) {
    var n := s.(timeout := c.timeoutOf(r), cart := s.cart.(parameters := c.cartOf(r)));
    if !c.local || s.e.engaged then n
    else n.(ebike := n.ebike.(control := EbikeControl.AfterConfigure(n.ebike.control), parameters := c.ebikeOf(r)))
  }

  /** StartRuntime(): stops the motor and starts it anew, whatever the stage is. */
  function ControllerRestarted(s: State, accepted: bool): (n: State) {
    s.(p := s.p.(running := accepted, restarts := s.p.restarts + [Restarting(s.p.stage, accepted)]))
  }

  /** ApplySettings(): the controller restarts, unless the outputs are released; `accepted` by the hardware. */
  function SettingsApplied(s: State, c: Config, accepted: bool): (n: State) {
    if s.p.stage.Enabled? then s.(settings := s.settings.(pending := true))
    else
      var r := ControllerRestarted(s.(settings := LiveTuning.Restarted(s.settings)), accepted);
      WithParameters(r, c, r.settings.applied)
  }

  predicate SettingsWait(s: State) { s.settings.pending || LiveTuning.HasUnappliedWrites(s.settings) }

  /** The last part of Engage(): `allowed` says that the external enable is there and no hold-off is active. */
  function Released(s: State, allowed: bool): (n: State) {
    var n := s.(d := s.d.(setpoint := NoSetpoint, outer := NOTHING),
                cart := s.cart.(control := CartControl.AfterReset(s.cart.control)),
                p := s.p.(tripped := false, stage := FaultCleared(s.p.stage)));
    if n.p.stage.Enabled? || allowed then
      n.(e := n.e.(engaged := true, engages := n.e.engages + 1), p := n.p.(stage := Enabled))
    else n.(e := n.e.(rearm := true))
  }

  function Engaged(s: State, c: Config, accepted: bool, allowed: bool): (n: State) {
    if s.e.engaged || s.e.emergency then s
    else if s.p.startup then s.(e := s.e.(rearm := true))
    else if !SettingsWait(s) then Released(s, allowed)
    else if s.p.stage.Enabled? || !accepted then SettingsApplied(s, c, accepted)
    else Released(SettingsApplied(s, c, accepted), allowed)
  }

  // ----- Messages and commands ------------------------------------------------------------------------

  datatype Readiness = Sleep | Standby | Engage

  datatype Message =
    | ReadinessMessage(value: Readiness)
    | SetpointMessage(id: int)
    | WheelCommand(torque: Option<real>)
    | PedalState(pedals: CartControl.Pedals)
    | BatteryStatus(status: CartControl.BatteryStatus)
    | RegisterWrite(name: LiveTuning.Name, encoding: int)
    | FactoryReset(factory: LiveTuning.Registers)
    | Restart
    | EmergencyStop
    | StartAid(released: bool, stage: Stage)
    | AbortAid
    | Interrupted(cause: Disturbance)

  function AfterReadiness(s: State, c: Config, value: Readiness, now: int): (n: State) {
    var n := s.(e := s.e.(lastReadiness := now));
    if value.Engage? then
      if c.local || n.e.engaged || n.e.rearm then n else n.(e := n.e.(requested := true))
    else
      var inhibited := n.ebike.(control := EbikeControl.AfterInhibit(n.ebike.control));
      var r := n.(e := n.e.(rearm := false), ebike := if c.local then inhibited else n.ebike);
      if r.e.engaged then Disengaged(r)
      else if value.Standby? then r.(p := r.p.(tripped := false, stage := FaultCleared(r.p.stage)))
      else r
  }

  /** RequestAbort(): no change unless a run is active; it ends with the outputs off. */
  function AidAborted(s: State): (n: State) {
    if s.p.startup then s.(p := s.p.(startup := false, stage := SwitchedOff(s.p.stage))) else s
  }

  /** Start(): refused while engaged, after an emergency stop, while a run is active, or not released. */
  function AidStarted(s: State, released: bool, stage: Stage): (n: State) {
    if s.e.engaged || s.e.emergency || s.p.startup || !released then s
    else s.(p := s.p.(startup := true, stage := stage, tripped := false))
  }

  function WithCart(s: State, control: CartControl.State): (n: State) { s.(cart := s.cart.(control := control)) }

  function AfterMessage(s: State, c: Config, now: int, m: Message): (n: State) {
    var cart := s.cart.control;
    match m
    case ReadinessMessage(value) => AfterReadiness(s, c, value, now)
    case SetpointMessage(id) => WithSetpoint(s, FromBus(id), now)
    case WheelCommand(torque) =>
      WithCart(s, cart.(hasCommand := true, commandAt := now,
                        commandTorque := if torque.Some? then torque.value else 0.0))
    case PedalState(pedals) => WithCart(s, cart.(hasPedals := true, pedalsAt := now, pedals := pedals))
    case BatteryStatus(status) => WithCart(s, cart.(hasBattery := true, batteryAt := now, battery := status))
    case RegisterWrite(name, encoding) => s.(settings := LiveTuning.Written(s.settings, name, encoding))
    case FactoryReset(factory) =>
      if s.e.engaged || s.p.startup then s else s.(settings := LiveTuning.FactoryReset(s.settings, factory))
    case Restart => Disengaged(AidAborted(s))
    case EmergencyStop => Disengaged(AidAborted(s.(e := s.e.(emergency := true))))
    case StartAid(released, stage) => AidStarted(s, released, stage)
    case AbortAid => AidAborted(s)
    case Interrupted(cause) => Disturbed(s, cause)
  }

  function Dispatched(s: State, c: Config, now: int, messages: seq<Message>): (n: State)
    decreases |messages|
  {
    if |messages| == 0 then s else Dispatched(AfterMessage(s, c, now, messages[0]), c, now, messages[1..])
  }

  // ----- The parts of Spin() -------------------------------------------------------------------------------

  function AfterBus(s: State, lost: bool): (n: State) {
    if lost then WithCart(s, CartControl.AfterBusLost(s.cart.control)) else s
  }

  function EbikeUpdated(s: State, now: int, sensed: EbikeControl.Sensed): (r: Local) {
    var u := EbikeControl.AfterUpdate(s.ebike.control, s.ebike.parameters, now, sensed,
                                      EbikeControl.Vehicle(s.e.engaged, s.e.rearm));
    s.ebike.(control := u, engage := u.output.engage, torque := u.output.torque)
  }

  function AfterLocalControl(s: State, c: Config, now: int, sensed: EbikeControl.Sensed): (n: State) {
    if !c.local then s
    else
      var n := s.(ebike := EbikeUpdated(s, now, sensed));
      if n.ebike.engage then
        n.(e := n.e.(lastReadiness := now, requested := n.e.requested || (!n.e.engaged && !n.e.rearm)))
      else
        var r := n.(e := n.e.(rearm := false));
        if r.e.engaged then Disengaged(r) else r
  }

  function AfterRequest(s: State, c: Config, accepted: bool, allowed: bool): (n: State) {
    if s.e.requested then Engaged(s.(e := s.e.(requested := false)), c, accepted, allowed) else s
  }

  /** One call of RunOnce() of the startup aid. */
  datatype AidStep = Continues(stage: Stage) | Ends(fault: bool)

  function AfterStartup(s: State, step: AidStep): (n: State) {
    if s.p.startup then
      match step
      case Continues(stage) => s.(p := s.p.(startupSeen := true, stage := stage))
      case Ends(fault) => s.(p := s.p.(startupSeen := true, startup := false, stage := Off(fault)))
    else if s.p.startupSeen then
      s.(p := s.p.(startupSeen := false), settings := s.settings.(pending := true))
    else s
  }

  /** Readiness timeout first, then trip and fault. */
  function Supervised(s: State, now: int, holds: bool): (n: State) {
    if !s.e.engaged then s
    else if Elapsed(now, s.e.lastReadiness) > s.timeout && !holds then Disengaged(s)
    else if !s.p.stage.Enabled? || s.p.tripped then Disengaged(s.(e := s.e.(rearm := true)))
    else s
  }

  function AfterTorque(s: State, c: Config, now: int, output: CartControl.Output): (n: State) {
    if !s.e.engaged then s
    else
      var a := if !output.mode.Off? then WithSetpoint(s, FromCart(output.torque), now) else s;
      var b := if c.local && a.ebike.engage then WithSetpoint(a, FromEbike(a.ebike.torque), now) else a;
      if b.d.setpoint.Setpoint? && Elapsed(now, b.d.at) > b.timeout then b.(d := b.d.(setpoint := NoSetpoint)) else b
  }

  function CartUpdated(s: State, now: int, speed: real): (r: CartControl.State) {
    CartControl.AfterUpdate(s.cart.control, s.cart.parameters, now, speed, s.e.engaged)
  }

  function AfterEngagement(s: State, c: Config, now: int, speed: real): (n: State) {
    var control := CartUpdated(s, now, speed);
    var output := CartControl.OutputOf(control, s.cart.parameters);
    AfterTorque(Supervised(WithCart(s, control), now, output.holdsEngagement), c, now, output)
  }

  function HandedOver(s: State): (n: State) { s.(d := s.d.(outer := Outer(s.e.engaged, s.d.setpoint))) }

  function LiveTuned(s: State, c: Config): (n: State) {
    var n := s.(settings := LiveTuning.Tuned(s.settings));
    if LiveTuning.FirstUntunableChange(s.settings.table, s.settings.applied, s.settings.live).Some? then n
    else WithParameters(n, c, s.settings.live)
  }

  function RestartedOrTuned(s: State, c: Config, accepted: bool): (n: State) {
    if s.e.engaged then (if s.settings.writes != s.settings.checkedWrites then LiveTuned(s, c) else s)
    else if SettingsWait(s) then SettingsApplied(s.(settings := s.settings.(pending := true)), c, accepted)
    else s
  }

  function AfterSettings(s: State, c: Config, accepted: bool): (n: State) {
    var n := RestartedOrTuned(s, c, accepted);
    n.(settings := LiveTuning.Reported(n.settings))
  }

  /** What a Spin() meets; `gaps` are the disturbances before its parts. */
  datatype Input = Input(now: int, messages: seq<Message>, busLost: bool, sensed: EbikeControl.Sensed,
                         accepted: bool, allowed: bool, aid: AidStep, speed: real,
                         gaps: (Disturbance, Disturbance, Disturbance, Disturbance))

  /** The state after the dispatch, the bus watch and the first disturbance. */
  function Heard(s: State, c: Config, i: Input): (n: State) {
    Disturbed(AfterBus(Dispatched(s, c, i.now, i.messages), i.busLost), i.gaps.0)
  }

  /** The state in which an engage request is looked at. */
  function Asking(s: State, c: Config, i: Input): (n: State) {
    Disturbed(AfterLocalControl(Heard(s, c, i), c, i.now, i.sensed), i.gaps.1)
  }

  /** Up to and including the engage request. */
  function FirstHalf(s: State, c: Config, i: Input): (n: State) {
    AfterRequest(Asking(s, c, i), c, i.accepted, i.allowed)
  }

  /** Startup aid and supervision. */
  function Middle(s: State, c: Config, i: Input): (n: State) {
    var startup := AfterStartup(Disturbed(s, i.gaps.2), i.aid);
    AfterEngagement(Disturbed(startup, i.gaps.3), c, i.now, i.speed)
  }

  function Last(s: State, c: Config, i: Input): (n: State) { AfterSettings(HandedOver(s), c, i.accepted) }

  function Spin(s: State, c: Config, i: Input): (n: State) { Last(Middle(FirstHalf(s, c, i), c, i), c, i) }

  function Run(s: State, c: Config, inputs: seq<Input>): (n: State)
    decreases |inputs|
  {
    if |inputs| == 0 then s else Run(Spin(s, c, inputs[0]), c, inputs[1..])
  }

  // ----- What every part keeps ----------------------------------------------------------------------------

  /** One owner of the outputs: the engaged drive or the startup aid, none after an emergency stop. */
  predicate OwnerInv(s: State) {
    && !(s.e.engaged && s.p.startup)
    && (s.p.stage.Enabled? ==> s.e.engaged || s.p.startup)
    && (s.e.emergency ==> !s.e.engaged && !s.p.startup)
    && OnlyOffRestarts(s.p.restarts)
  }

  /** No restart found the outputs released. */
  predicate OnlyOffRestarts(restarts: seq<Restarting>) {
    forall k :: 0 <= k < |restarts| ==> restarts[k].stage.Off?
  }

  /** A drive that waits for a re-arm has no engage request. */
  predicate RearmInv(s: State) { s.e.rearm ==> !s.e.requested }

  predicate FromThisEngagement(s: State, setpoint: Setpoint) { setpoint.Setpoint? ==> setpoint.engages == s.e.engages }

  /** Only setpoints accepted since the engage can act, and the outer loop is only active while engaged. */
  predicate SetpointInv(s: State) {
    && (s.d.setpoint.Setpoint? ==> s.d.setpoint.engages <= s.e.engages)
    && (s.e.engaged ==> FromThisEngagement(s, s.d.setpoint))
    && (s.d.outer.active ==> s.e.engaged && FromThisEngagement(s, s.d.outer.setpoint))
  }

  predicate Inv(s: State) {
    OwnerInv(s) && RearmInv(s) && SetpointInv(s) && LiveTuning.Inv(s.settings) && CartControl.Valid(s.cart.control)
  }

  lemma DisturbedKeepsInv(s: State, d: Disturbance)
    requires Inv(s)
    ensures Inv(Disturbed(s, d)) && Disturbed(s, d).e == s.e
  {
  }

  lemma DisengagedKeepsInv(s: State)
    requires RearmInv(s) && SetpointInv(s) && LiveTuning.Inv(s.settings) && CartControl.Valid(s.cart.control)
    requires OwnerInv(s) || (s.e.emergency && !s.p.startup && OnlyOffRestarts(s.p.restarts))
    ensures Inv(Disengaged(s)) && !Disengaged(s).e.engaged
  {
  }

  lemma AppliedKeepsInv(s: State, c: Config, accepted: bool)
    requires Inv(s)
    ensures Inv(SettingsApplied(s, c, accepted)) && SettingsApplied(s, c, accepted).e == s.e
    ensures SettingsApplied(s, c, accepted).p.stage == s.p.stage
    ensures SettingsApplied(s, c, accepted).p.startup == s.p.startup
  {
  }

  lemma ReleasedKeepsInv(s: State, allowed: bool)
    requires Inv(s) && !s.e.engaged && !s.e.emergency && !s.p.startup && !s.e.requested
    ensures Inv(Released(s, allowed))
  {
  }

  lemma EngagedKeepsInv(s: State, c: Config, accepted: bool, allowed: bool)
    requires Inv(s) && !s.e.requested
    ensures Inv(Engaged(s, c, accepted, allowed))
  {
    if !s.e.engaged && !s.e.emergency && !s.p.startup {
      AppliedKeepsInv(s, c, accepted);
      if !SettingsWait(s) {
        ReleasedKeepsInv(s, allowed);
      } else if !s.p.stage.Enabled? && accepted {
        ReleasedKeepsInv(SettingsApplied(s, c, accepted), allowed);
      }
    }
  }

  lemma ReadinessKeepsInv(s: State, c: Config, value: Readiness, now: int)
    requires Inv(s)
    ensures Inv(AfterReadiness(s, c, value, now))
  {
  }

  lemma MessageKeepsInv(s: State, c: Config, now: int, m: Message)
    requires Inv(s)
    ensures Inv(AfterMessage(s, c, now, m))
  {
    match m
    case ReadinessMessage(value) => ReadinessKeepsInv(s, c, value, now);
    case RegisterWrite(name, encoding) => LiveTuning.WrittenKeepsInv(s.settings, name, encoding);
    case FactoryReset(factory) => LiveTuning.FactoryResetKeepsInv(s.settings, factory);
    case Restart => DisengagedKeepsInv(AidAborted(s));
    case EmergencyStop => DisengagedKeepsInv(AidAborted(s.(e := s.e.(emergency := true))));
    case _ =>
  }

  lemma {:induction false} DispatchedKeepsInv(s: State, c: Config, now: int, messages: seq<Message>)
    requires Inv(s)
    ensures Inv(Dispatched(s, c, now, messages))
    decreases |messages|
  {
    if |messages| != 0 {
      MessageKeepsInv(s, c, now, messages[0]);
      DispatchedKeepsInv(AfterMessage(s, c, now, messages[0]), c, now, messages[1..]);
    }
  }

  lemma LocalControlKeepsInv(s: State, c: Config, now: int, sensed: EbikeControl.Sensed)
    requires Inv(s)
    ensures Inv(AfterLocalControl(s, c, now, sensed))
  {
  }

  lemma StartupKeepsInv(s: State, step: AidStep)
    requires Inv(s)
    ensures Inv(AfterStartup(s, step)) && AfterStartup(s, step).e == s.e
  {
  }

  lemma EngagementKeepsInv(s: State, c: Config, now: int, speed: real)
    requires Inv(s) && !s.e.requested
    ensures Inv(AfterEngagement(s, c, now, speed)) && !AfterEngagement(s, c, now, speed).e.requested
  {
    var control := CartUpdated(s, now, speed);
    CartControl.UpdateKeepsValid(s.cart.control, s.cart.parameters, now, speed, s.e.engaged);
    var output := CartControl.OutputOf(control, s.cart.parameters);
    var n := WithCart(s, control);
    var v := Supervised(n, now, output.holdsEngagement);
    assert Inv(n) && Inv(v);
  }

  lemma TunedKeepsInv(s: State, c: Config)
    requires Inv(s)
    ensures Inv(LiveTuned(s, c)) && LiveTuned(s, c).e == s.e
  {
    LiveTuning.TunedLikeRestarted(s.settings);
  }

  lemma SettingsKeepsInv(s: State, c: Config, accepted: bool)
    requires Inv(s)
    ensures var n := AfterSettings(s, c, accepted);
            Inv(n) && n.e == s.e && n.d == s.d && n.settings.waiting == SettingsWait(n)
  {
    if s.e.engaged {
      TunedKeepsInv(s, c);
    } else {
      AppliedKeepsInv(s.(settings := s.settings.(pending := true)), c, accepted);
    }
  }

  lemma FirstHalfKeepsInv(s: State, c: Config, i: Input)
    requires Inv(s)
    ensures Inv(FirstHalf(s, c, i)) && !FirstHalf(s, c, i).e.requested
  {
    DispatchedKeepsInv(s, c, i.now, i.messages);
    DisturbedKeepsInv(AfterBus(Dispatched(s, c, i.now, i.messages), i.busLost), i.gaps.0);
    LocalControlKeepsInv(Heard(s, c, i), c, i.now, i.sensed);
    DisturbedKeepsInv(AfterLocalControl(Heard(s, c, i), c, i.now, i.sensed), i.gaps.1);
    RequestKeepsInv(Asking(s, c, i), c, i.accepted, i.allowed);
  }

  lemma RequestKeepsInv(s: State, c: Config, accepted: bool, allowed: bool)
    requires Inv(s)
    ensures Inv(AfterRequest(s, c, accepted, allowed)) && !AfterRequest(s, c, accepted, allowed).e.requested
  {
    if s.e.requested {
      EngagedKeepsInv(s.(e := s.e.(requested := false)), c, accepted, allowed);
    }
  }

  lemma MiddleKeepsInv(s: State, c: Config, i: Input)
    requires Inv(s) && !s.e.requested
    ensures Inv(Middle(s, c, i)) && !Middle(s, c, i).e.requested
  {
    DisturbedKeepsInv(s, i.gaps.2);
    StartupKeepsInv(Disturbed(s, i.gaps.2), i.aid);
    var startup := AfterStartup(Disturbed(s, i.gaps.2), i.aid);
    DisturbedKeepsInv(startup, i.gaps.3);
    EngagementKeepsInv(Disturbed(startup, i.gaps.3), c, i.now, i.speed);
  }

  lemma LastKeepsInv(s: State, c: Config, i: Input)
    requires Inv(s)
    ensures var n := Last(s, c, i);
            Inv(n) && n.e == s.e && n.d.outer == Outer(s.e.engaged, s.d.setpoint) && n.d.setpoint == s.d.setpoint
            && n.settings.waiting == SettingsWait(n)
  {
    SettingsKeepsInv(HandedOver(s), c, i.accepted);
  }

  /** After a Spin() the outer loop is active exactly when the drive is engaged, on the setpoint of this engagement. */
  lemma SpinKeepsInv(s: State, c: Config, i: Input)
    requires Inv(s)
    ensures var n := Spin(s, c, i);
            && Inv(n) && !n.e.requested
            && n.d.outer == Outer(n.e.engaged, n.d.setpoint)
            && n.settings.waiting == SettingsWait(n)
  {
    FirstHalfKeepsInv(s, c, i);
    MiddleKeepsInv(FirstHalf(s, c, i), c, i);
    LastKeepsInv(Middle(FirstHalf(s, c, i), c, i), c, i);
  }

  lemma {:induction false} RunKeepsInv(s: State, c: Config, inputs: seq<Input>)
    requires Inv(s)
    ensures Inv(Run(s, c, inputs))
    ensures |inputs| > 0 ==> var n := Run(s, c, inputs);
                             && n.d.outer == Outer(n.e.engaged, n.d.setpoint)
                             && n.settings.waiting == SettingsWait(n) && !n.e.requested
    decreases |inputs|
  {
    if |inputs| != 0 {
      SpinKeepsInv(s, c, inputs[0]);
      RunKeepsInv(Spin(s, c, inputs[0]), c, inputs[1..]);
    }
  }

  // ----- Whole runs from the start -----------------------------------------------------------------------

  /** After Start(): disengaged, outputs off, the controller runs with the live settings. */
  predicate Initial(s: State) {
    && !s.e.engaged && !s.e.rearm && !s.e.requested && !s.e.emergency && s.e.engages == 0
    && s.d.setpoint.NoSetpoint? && s.d.outer == NOTHING
    && s.p == Power(Off(false), false, false, false, true, [])
    && LiveTuning.Covers(s.settings.table, s.settings.live) && s.settings == LiveTuning.Restarted(s.settings)
    && s.cart.control.mode.Off?
  }

  lemma InitialInv(s: State)
    requires Initial(s)
    ensures Inv(s)
  {
    LiveTuning.RestartedInv(s.settings);
  }

  /** Released outputs always have exactly one owner, and the controller was never restarted under them. */
  lemma OutputsHaveOneOwner(s: State, c: Config, inputs: seq<Input>)
    requires Initial(s)
    ensures var n := Run(s, c, inputs);
            && !(n.e.engaged && n.p.startup)
            && (n.p.stage.Enabled? ==> n.e.engaged || n.p.startup)
            && (forall k :: 0 <= k < |n.p.restarts| ==> n.p.restarts[k].stage.Off?)
  {
    InitialInv(s);
    RunKeepsInv(s, c, inputs);
  }

  /** The outer loop is active exactly while engaged, and never with a setpoint from before the engage. */
  lemma OldSetpointNeverActs(s: State, c: Config, inputs: seq<Input>)
    requires Initial(s) && |inputs| > 0
    ensures var n := Run(s, c, inputs);
            && n.d.outer.active == n.e.engaged
            && (n.d.outer.active && n.d.outer.setpoint.Setpoint? ==> n.d.outer.setpoint.engages == n.e.engages)
  {
    InitialInv(s);
    RunKeepsInv(s, c, inputs);
  }

  /** When no settings are reported as waiting, the controller runs with the live ones. */
  lemma NotWaitingMeansApplied(s: State, c: Config, inputs: seq<Input>)
    requires Initial(s) && |inputs| > 0
    ensures var n := Run(s, c, inputs);
            !n.settings.waiting ==> n.settings.applied == n.settings.live == n.settings.inForce
  {
    InitialInv(s);
    RunKeepsInv(s, c, inputs);
  }

  // ----- What the parts leave alone ------------------------------------------------------------------------

  lemma LocalControlFacts(s: State, c: Config, now: int, sensed: EbikeControl.Sensed)
    ensures var n := AfterLocalControl(s, c, now, sensed);
            && n.e.emergency == s.e.emergency && n.e.engages == s.e.engages && n.settings == s.settings
            && (n.e.engaged ==> s.e.engaged) && (!c.local ==> n == s)
  {
  }

  lemma RequestFacts(s: State, c: Config, accepted: bool, allowed: bool)
    ensures var n := AfterRequest(s, c, accepted, allowed);
            && n.e.emergency == s.e.emergency && n.e.engages >= s.e.engages
            && (n.e.engaged && !s.e.engaged ==> n.e.engages > s.e.engages)
            && (s.e.engaged ==> n.settings == s.settings)
            && (!s.e.requested ==> n == s)
  {
  }

  lemma FirstHalfFacts(s: State, c: Config, i: Input)
    ensures var d := Dispatched(s, c, i.now, i.messages);
            var n := FirstHalf(s, c, i);
            && n.e.emergency == d.e.emergency && n.e.engages >= d.e.engages
            && (n.e.engaged && !d.e.engaged ==> n.e.engages > d.e.engages)
            && (n.e.engaged && n.e.engages == d.e.engages ==> n.settings == d.settings)
            && (!c.local && !d.e.requested ==> n.e == d.e && n.settings == d.settings)
  {
    var h := Heard(s, c, i);
    assert h.e == Dispatched(s, c, i.now, i.messages).e && h.settings == Dispatched(s, c, i.now, i.messages).settings;
    LocalControlFacts(h, c, i.now, i.sensed);
    var local := AfterLocalControl(h, c, i.now, i.sensed);
    var r := Disturbed(local, i.gaps.1);
    assert r.e == local.e && r.settings == local.settings;
    RequestFacts(r, c, i.accepted, i.allowed);
    assert FirstHalf(s, c, i) == AfterRequest(r, c, i.accepted, i.allowed);
  }

  lemma EngagementFacts(s: State, c: Config, now: int, speed: real)
    ensures var n := AfterEngagement(s, c, now, speed);
            && n.e.emergency == s.e.emergency && n.e.engages == s.e.engages && n.e.requested == s.e.requested
            && n.settings == s.settings && (n.e.engaged ==> s.e.engaged) && (s.e.rearm ==> n.e.rearm)
  {
    var v := WithCart(s, CartUpdated(s, now, speed));
    assert v.e == s.e && v.settings == s.settings;
  }

  lemma MiddleFacts(s: State, c: Config, i: Input)
    ensures var n := Middle(s, c, i);
            && n.e.emergency == s.e.emergency && n.e.engages == s.e.engages && n.e.requested == s.e.requested
            && n.settings.applied == s.settings.applied && (n.e.engaged ==> s.e.engaged) && (s.e.rearm ==> n.e.rearm)
  {
    var a := AfterStartup(Disturbed(s, i.gaps.2), i.aid);
    assert a.e == s.e && a.settings.applied == s.settings.applied;
    var d := Disturbed(a, i.gaps.3);
    assert d.e == a.e && d.settings == a.settings;
    EngagementFacts(d, c, i.now, i.speed);
    assert Middle(s, c, i) == AfterEngagement(d, c, i.now, i.speed);
  }

  lemma LastFacts(s: State, c: Config, i: Input)
    ensures Last(s, c, i).e == s.e && Last(s, c, i).d.setpoint == s.d.setpoint
  {
  }

  // ----- Restarts of the controller -----------------------------------------------------------------------

  /** The engage request of this Spin() restarts the controller first: settings wait, and nothing refuses it. */
  predicate RestartsAtEngage(s: State, c: Config, i: Input) {
    var r := Asking(s, c, i);
    && r.e.requested && !r.e.engaged && !r.e.emergency && !r.p.startup
    && SettingsWait(r) && !r.p.stage.Enabled?
  }

  /** The end of this Spin() restarts the controller: settings wait, and the outputs are off. */
  predicate RestartsAtEnd(s: State, c: Config, i: Input) {
    var m := Middle(FirstHalf(s, c, i), c, i);
    !m.e.engaged && SettingsWait(m) && !m.p.stage.Enabled?
  }

  lemma {:induction false} DispatchKeepsRunning(s: State, c: Config, now: int, messages: seq<Message>)
    ensures Dispatched(s, c, now, messages).p.running == s.p.running
    decreases |messages|
  {
    if |messages| != 0 {
      DispatchKeepsRunning(AfterMessage(s, c, now, messages[0]), c, now, messages[1..]);
    }
  }

  lemma DisturbedKeepsRunning(s: State, d: Disturbance)
    ensures Disturbed(s, d).p.running == s.p.running
  {
  }

  lemma StartupKeepsRunning(s: State, step: AidStep)
    ensures AfterStartup(s, step).p.running == s.p.running
  {
  }

  lemma LocalControlKeepsRunning(s: State, c: Config, now: int, sensed: EbikeControl.Sensed)
    ensures AfterLocalControl(s, c, now, sensed).p.running == s.p.running
  {
  }

  lemma AskingKeepsRunning(s: State, c: Config, i: Input)
    ensures Asking(s, c, i).p.running == s.p.running
  {
    var d := Dispatched(s, c, i.now, i.messages);
    DispatchKeepsRunning(s, c, i.now, i.messages);
    DisturbedKeepsRunning(AfterBus(d, i.busLost), i.gaps.0);
    LocalControlKeepsRunning(Heard(s, c, i), c, i.now, i.sensed);
    DisturbedKeepsRunning(AfterLocalControl(Heard(s, c, i), c, i.now, i.sensed), i.gaps.1);
  }

  lemma EngagementKeepsRunning(s: State, c: Config, now: int, speed: real)
    ensures AfterEngagement(s, c, now, speed).p.running == s.p.running
  {
  }

  lemma MiddleKeepsRunning(s: State, c: Config, i: Input)
    ensures Middle(s, c, i).p.running == s.p.running
  {
    var a := Disturbed(s, i.gaps.2);
    DisturbedKeepsRunning(s, i.gaps.2);
    StartupKeepsRunning(a, i.aid);
    DisturbedKeepsRunning(AfterStartup(a, i.aid), i.gaps.3);
    EngagementKeepsRunning(Disturbed(AfterStartup(a, i.aid), i.gaps.3), c, i.now, i.speed);
  }

  lemma RequestRuns(s: State, c: Config, i: Input)
    ensures FirstHalf(s, c, i).p.running == if RestartsAtEngage(s, c, i) then i.accepted else Asking(s, c, i).p.running
  {
  }

  lemma LastRuns(s: State, c: Config, i: Input)
    ensures Last(s, c, i).p.running
         == if !s.e.engaged && SettingsWait(s) && !s.p.stage.Enabled? then i.accepted else s.p.running
  {
  }

  lemma SpinRuns(s: State, c: Config, i: Input)
    ensures Spin(s, c, i).p.running
         == if RestartsAtEngage(s, c, i) || RestartsAtEnd(s, c, i) then i.accepted else s.p.running
  {
    AskingKeepsRunning(s, c, i);
    RequestRuns(s, c, i);
    MiddleKeepsRunning(FirstHalf(s, c, i), c, i);
    LastRuns(Middle(FirstHalf(s, c, i), c, i), c, i);
  }

  /** The answer of the hardware to the last restart in a history of inputs; `before` without any. */
  predicate LastRestartAccepted(s: State, c: Config, inputs: seq<Input>, before: bool)
    decreases |inputs|
  {
    if |inputs| == 0 then before
    else
      var restarts := RestartsAtEngage(s, c, inputs[0]) || RestartsAtEnd(s, c, inputs[0]);
      LastRestartAccepted(Spin(s, c, inputs[0]), c, inputs[1..], if restarts then inputs[0].accepted else before)
  }

  /** Over every history the motor runs, engaged or not, exactly if the hardware took the last restart. */
  lemma {:induction false} MotorRunsIffLastRestartAccepted(s: State, c: Config, inputs: seq<Input>)
    ensures Run(s, c, inputs).p.running <==> LastRestartAccepted(s, c, inputs, s.p.running)
    decreases |inputs|
  {
    if |inputs| != 0 {
      SpinRuns(s, c, inputs[0]);
      MotorRunsIffLastRestartAccepted(Spin(s, c, inputs[0]), c, inputs[1..]);
    }
  }

  // ----- Emergency stop ----------------------------------------------------------------------------------------

  lemma {:induction false} DispatchKeepsEmergency(s: State, c: Config, now: int, messages: seq<Message>)
    ensures Dispatched(s, c, now, messages).e.emergency <==> s.e.emergency || EmergencyStop in messages
    decreases |messages|
  {
    if |messages| != 0 {
      var n := AfterMessage(s, c, now, messages[0]);
      assert n.e.emergency == (s.e.emergency || messages[0] == EmergencyStop);
      DispatchKeepsEmergency(n, c, now, messages[1..]);
      assert messages == [messages[0]] + messages[1..];
    }
  }

  lemma SpinKeepsEmergency(s: State, c: Config, i: Input)
    ensures Spin(s, c, i).e.emergency <==> s.e.emergency || EmergencyStop in i.messages
  {
    DispatchKeepsEmergency(s, c, i.now, i.messages);
    FirstHalfFacts(s, c, i);
    MiddleFacts(FirstHalf(s, c, i), c, i);
    LastFacts(Middle(FirstHalf(s, c, i), c, i), c, i);
  }

  lemma {:induction false} RunKeepsEmergency(s: State, c: Config, inputs: seq<Input>)
    requires s.e.emergency
    ensures Run(s, c, inputs).e.emergency
    decreases |inputs|
  {
    if |inputs| != 0 {
      SpinKeepsEmergency(s, c, inputs[0]);
      RunKeepsEmergency(Spin(s, c, inputs[0]), c, inputs[1..]);
    }
  }

  lemma {:induction false} RunSplits(s: State, c: Config, first: seq<Input>, second: seq<Input>)
    ensures Run(s, c, first + second) == Run(Run(s, c, first), c, second)
    decreases |first|
  {
    if |first| == 0 {
      assert first + second == second;
    } else {
      assert (first + second)[0] == first[0] && (first + second)[1..] == first[1..] + second;
      RunSplits(Spin(s, c, first[0]), c, first[1..], second);
    }
  }

  /** From the Spin() that receives EMERGENCY_STOP on, nothing releases the outputs again. */
  lemma EmergencyStopIsFinal(s: State, c: Config, before: seq<Input>, stop: Input, after: seq<Input>)
    requires Initial(s) && EmergencyStop in stop.messages
    ensures var n := Run(s, c, before + [stop] + after);
            !n.e.engaged && !n.p.startup && !n.p.stage.Enabled? && !n.d.outer.active
  {
    InitialInv(s);
    RunKeepsInv(s, c, before + [stop] + after);
    RunSplits(s, c, before + [stop], after);
    RunSplits(s, c, before, [stop]);
    var b := Run(s, c, before);
    assert [stop][1..] == [];
    assert Run(b, c, [stop]) == Spin(b, c, stop);
    SpinKeepsEmergency(b, c, stop);
    RunKeepsEmergency(Spin(b, c, stop), c, after);
  }

  // ----- Re-arm after a trip or fault --------------------------------------------------------------------------

  /**
   A lost or tripped stage always disengages. The drive then waits for a re-arm exactly when the
   readiness had not timed out as well (or the cart held the engagement): the timeout comes first.
   */
  lemma TripDisengages(s: State, c: Config, now: int, speed: real)
    requires s.e.engaged && !s.e.rearm && (!s.p.stage.Enabled? || s.p.tripped)
    ensures var n := AfterEngagement(s, c, now, speed);
            var holds := CartControl.OutputOf(CartUpdated(s, now, speed), s.cart.parameters).holdsEngagement;
            && !n.e.engaged && !n.p.stage.Enabled? && n.d.setpoint.NoSetpoint?
            && (n.e.rearm <==> Elapsed(now, s.e.lastReadiness) <= s.timeout || holds)
  {
  }

  predicate Rearms(m: Message) { m.ReadinessMessage? && !m.value.Engage? }

  predicate NoRearm(inputs: seq<Input>) {
    forall i :: 0 <= i < |inputs| ==> NoRearmMessage(inputs[i].messages)
  }

  predicate NoRearmMessage(messages: seq<Message>) {
    forall k :: 0 <= k < |messages| ==> !Rearms(messages[k])
  }

  predicate Waits(s: State) { s.e.rearm && !s.e.engaged && !s.e.requested }

  lemma {:induction false} DispatchKeepsWaiting(s: State, c: Config, now: int, messages: seq<Message>)
    requires Waits(s) && NoRearmMessage(messages)
    ensures Waits(Dispatched(s, c, now, messages))
    decreases |messages|
  {
    if |messages| != 0 {
      assert !Rearms(messages[0]);
      assert Waits(AfterMessage(s, c, now, messages[0]));
      DispatchKeepsWaiting(AfterMessage(s, c, now, messages[0]), c, now, messages[1..]);
    }
  }

  lemma SpinKeepsWaiting(s: State, c: Config, i: Input)
    requires Waits(s) && !c.local && NoRearmMessage(i.messages)
    ensures Waits(Spin(s, c, i))
  {
    DispatchKeepsWaiting(s, c, i.now, i.messages);
    FirstHalfFacts(s, c, i);
    MiddleFacts(FirstHalf(s, c, i), c, i);
    LastFacts(Middle(FirstHalf(s, c, i), c, i), c, i);
  }

  /** Without a local control, a drive that waits for a re-arm stays off until a readiness other than ENGAGED. */
  lemma {:induction false} NoEngageWithoutRearm(s: State, c: Config, inputs: seq<Input>)
    requires Waits(s) && !c.local && NoRearm(inputs)
    ensures !Run(s, c, inputs).e.engaged && Run(s, c, inputs).e.rearm
    decreases |inputs|
  {
    if |inputs| != 0 {
      assert NoRearmMessage(inputs[0].messages);
      SpinKeepsWaiting(s, c, inputs[0]);
      NoEngageWithoutRearm(Spin(s, c, inputs[0]), c, inputs[1..]);
    }
  }

  // ----- Settings while engaged ---------------------------------------------------------------------------------

  /** If `n` follows `s` in the same engagement, the registers that need a restart are the same. */
  predicate KeepsUntunable(s: State, n: State) {
    && n.e.engages >= s.e.engages
    && (n.e.engaged && n.e.engages == s.e.engages ==>
          s.e.engaged && LiveTuning.SameUntunable(s.settings.applied, n.settings.applied))
  }

  lemma {:induction false} DispatchKeepsUntunable(s: State, c: Config, now: int, messages: seq<Message>)
    ensures KeepsUntunable(s, Dispatched(s, c, now, messages))
    decreases |messages|
  {
    if |messages| != 0 {
      var n := AfterMessage(s, c, now, messages[0]);
      assert KeepsUntunable(s, n);
      DispatchKeepsUntunable(n, c, now, messages[1..]);
    }
  }

  lemma LastKeepsUntunable(s: State, c: Config, i: Input)
    requires Inv(s)
    ensures KeepsUntunable(s, Last(s, c, i))
  {
    LiveTuning.TunedLikeRestarted(HandedOver(s).settings);
    LastKeepsInv(s, c, i);
  }

  /** Within one engagement no Spin() changes a register that needs a restart. */
  lemma SpinKeepsUntunable(s: State, c: Config, i: Input)
    requires Inv(s)
    ensures KeepsUntunable(s, Spin(s, c, i))
  {
    DispatchKeepsUntunable(s, c, i.now, i.messages);
    FirstHalfKeepsInv(s, c, i);
    FirstHalfFacts(s, c, i);
    var f := FirstHalf(s, c, i);
    assert KeepsUntunable(s, f);
    MiddleKeepsInv(f, c, i);
    MiddleFacts(f, c, i);
    LastKeepsUntunable(Middle(f, c, i), c, i);
  }

  /** The same over runs, however long the engagement lasts. */
  lemma {:induction false} EngagedKeepsUntunable(s: State, c: Config, inputs: seq<Input>)
    requires Inv(s)
    ensures KeepsUntunable(s, Run(s, c, inputs))
    decreases |inputs|
  {
    if |inputs| != 0 {
      SpinKeepsInv(s, c, inputs[0]);
      SpinKeepsUntunable(s, c, inputs[0]);
      EngagedKeepsUntunable(Spin(s, c, inputs[0]), c, inputs[1..]);
    }
  }
}
