/** The drive node as an object: its handlers and the parts of Spin() update its fields in place. */
module DriveNodeObject {
  import opened Units
  import CartControl
  import EbikeControl
  import opened LiveTuning
  import opened DriveNode

  /** An emergency stop anywhere in a history leaves everything off. */
  lemma StoppedInHistory(s: State, c: Config, inputs: seq<Input>)
    requires Initial(s) && exists k :: 0 <= k < |inputs| && EmergencyStop in inputs[k].messages
    ensures var n := Run(s, c, inputs);
            !n.e.engaged && !n.p.startup && !n.p.stage.Enabled? && !n.d.outer.active
  {
    var k :| 0 <= k < |inputs| && EmergencyStop in inputs[k].messages;
    assert inputs == inputs[..k] + [inputs[k]] + inputs[k + 1..];
    EmergencyStopIsFinal(s, c, inputs[..k], inputs[k], inputs[k + 1..]);
  }

  /** Nothing is asked of the outer loop and the cart. */
  function DemandDropped(s: State): (n: State) {
    s.(d := s.d.(setpoint := NoSetpoint, outer := NOTHING),
       cart := s.cart.(control := CartControl.AfterReset(s.cart.control)))
  }

  /** What a readiness other than ENGAGED does first. */
  function Rearmed(s: State, c: Config): (n: State) {
    var inhibited := s.ebike.(control := EbikeControl.AfterInhibit(s.ebike.control));
    s.(e := s.e.(rearm := false), ebike := if c.local then inhibited else s.ebike)
  }

  function Acknowledged(s: State): (n: State) {
    s.(p := s.p.(tripped := false, stage := FaultCleared(s.p.stage)))
  }

  /** The drive after the update of its e-bike: asked for, or taken off. */
  function EbikeFollowed(s: State, now: int): (n: State) {
    if s.ebike.engage then
      s.(e := s.e.(lastReadiness := now, requested := s.e.requested || (!s.e.engaged && !s.e.rearm)))
    else
      var r := s.(e := s.e.(rearm := false));
      if r.e.engaged then Disengaged(r) else r
  }

  class Node {
    const config: Config
    const cart: CartControl.Control
    const ebike: EbikeControl.Control

    var engaged: bool
    var rearm: bool
    var requested: bool
    var emergency: bool
    var lastReadiness: int
    var engages: nat  // history only, as in a setpoint

    var setpoint: Setpoint
    var setpointAt: int
    var outer: Outer

    var stage: Stage
    var tripped: bool
    var startup: bool
    var startupSeen: bool
    var running: bool
    var restarts: seq<Restarting>  // history only

    var settings: Settings
    var timeout: nat
    var ebikeEngage: bool
    var ebikeTorque: real

    function ViewEngagement(): (e: Engagement)
      reads this
    {
      Engagement(engaged, rearm, requested, emergency, lastReadiness, engages)
    }

    function ViewDemand(): (d: Demand)
      reads this
    {
      Demand(setpoint, setpointAt, outer)
    }

    function ViewPower(): (p: Power)
      reads this
    {
      Power(stage, tripped, startup, startupSeen, running, restarts)
    }

    function ViewCart(): (k: Cart)
      reads cart
    {
      Cart(cart.View(), cart.parameters)
    }

    function ViewEbike(): (k: Local)
      reads this, ebike
    {
      Local(ebike.View(), ebike.parameters, ebikeEngage, ebikeTorque)
    }

    function View(): (s: State)
      reads this, cart, ebike
    {
      State(ViewEngagement(), ViewDemand(), ViewPower(), settings, timeout, ViewCart(), ViewEbike())
    }

    /** Start(): the runtime runs with the live settings already. */
    constructor (c: Config, table: seq<Name>, live: Registers)
      requires Covers(table, live)
      ensures config == c && Initial(View()) && fresh(cart) && fresh(ebike)
    {
      config := c;
      cart := new CartControl.Control(c.cartOf(live));
      ebike := new EbikeControl.Control(c.ebikeOf(live));
      engaged, rearm, requested, emergency, lastReadiness, engages := false, false, false, false, 0, 0;
      setpoint, setpointAt, outer := NoSetpoint, 0, NOTHING;
      stage, tripped, startup, startupSeen, running, restarts := Off(false), false, false, false, true, [];
      settings := Settings(table, live, live, live, 0, 0, 0, false, false);
      timeout, ebikeEngage, ebikeTorque := c.timeoutOf(live), false, 0.0;
    }

    // ----- Setpoint, engage and disengage ---------------------------------------------------------

    method SetSetpoint(source: Source, now: int)
      modifies `setpoint, `setpointAt
      ensures View() == WithSetpoint(old(View()), source, now)
    {
      setpoint := Setpoint(source, engages);
      setpointAt := now;
    }

    method ClearSetpoint()
      modifies `setpoint
      ensures setpoint == NoSetpoint
    {
      setpoint := NoSetpoint;
    }

    /** The lines that an engage and a disengage start with. */
    method DropDemand()
      modifies `setpoint, `outer, cart`mode, cart`torque
      ensures View() == DemandDropped(old(View()))
    {
      ClearSetpoint();
      cart.Reset();
      outer := NOTHING;
      assert ViewEbike() == old(ViewEbike());
    }

    /** The end of Disengage(): the outputs go off unless a startup run owns them. */
    method LetGo()
      modifies `stage, `engaged
      ensures ViewEngagement() == old(ViewEngagement()).(engaged := false)
      ensures ViewPower() == if old(engaged) || !startup then old(ViewPower()).(stage := SwitchedOff(old(stage)))
                             else old(ViewPower())
    {
      if engaged || !startup {
        stage := SwitchedOff(stage);
      }
      if engaged {
        engaged := false;
      }
    }

    method Disengage()
      modifies `setpoint, `outer, `stage, `engaged, cart`mode, cart`torque
      ensures View() == Disengaged(old(View()))
      ensures !engaged && (!old(engaged) && startup ==> stage == old(stage))
    {
      DropDemand();
      ghost var dropped := View();
      LetGo();
      assert View() == dropped.(e := ViewEngagement(), p := ViewPower());
    }

    method LoadParameters(registers: Registers)
      modifies `timeout, cart`parameters, ebike
      ensures View() == WithParameters(old(View()), config, registers)
    {
      timeout := config.timeoutOf(registers);
      cart.Configure(config.cartOf(registers));
      if config.local && !engaged {
        ebike.Configure(config.ebikeOf(registers));
      }
    }

    /** StartRuntime(). */
    method StartRuntime(accepted: bool)
      modifies `running, `restarts
      ensures View() == ControllerRestarted(old(View()), accepted)
    {
      running := false;
      restarts := restarts + [Restarting(stage, accepted)];
      running := accepted;
    }

    method ApplySettings(accepted: bool) returns (applied: bool)
      modifies `settings, `timeout, `running, `restarts, cart`parameters, ebike
      ensures View() == SettingsApplied(old(View()), config, accepted)
      ensures applied == (!stage.Enabled? && accepted)
      ensures stage.Enabled? ==> settings == old(settings).(pending := true)
    {
      if stage.Enabled? {
        settings := settings.(pending := true);
        return false;
      }
      settings := settings.(appliedWrites := settings.writes, checkedWrites := settings.writes, pending := false,
                            applied := settings.live, inForce := settings.live);
      LoadParameters(settings.live);
      StartRuntime(accepted);
      return accepted;
    }

    /** kPowerStage.Enable(). */
    method EnableStage(allowed: bool) returns (released: bool)
      modifies `stage
      ensures released == (old(stage).Enabled? || (allowed && !old(stage).fault))
      ensures stage == if released then Enabled else old(stage)
    {
      if stage.Enabled? {
        return true;
      }
      if stage.fault || !allowed {
        return false;
      }
      stage := Enabled;
      return true;
    }

    /** Acknowledges a latched trip and fault and asks for the outputs. */
    method TakeOutputs(allowed: bool)
      modifies `tripped, `stage, `engaged, `engages, `rearm
      ensures var (released, e) := (old(stage).Enabled? || allowed, old(ViewEngagement()));
              && ViewPower() == old(ViewPower()).(tripped := false, stage := if released then Enabled else Off(false))
              && ViewEngagement() ==
                   if released then e.(engaged := true, engages := e.engages + 1) else e.(rearm := true)
    {
      tripped := false;
      stage := FaultCleared(stage);
      var released := EnableStage(allowed);
      if !released {
        rearm := true;
        return;
      }
      engaged := true;
      engages := engages + 1;
    }

    method Release(allowed: bool)
      modifies `setpoint, `outer, `tripped, `stage, `engaged, `engages, `rearm, cart`mode, cart`torque
      ensures View() == Released(old(View()), allowed)
    {
      DropDemand();
      ghost var dropped := View();
      TakeOutputs(allowed);
      assert View() == dropped.(e := ViewEngagement(), p := ViewPower());
    }

    method Engage(accepted: bool, allowed: bool)
      modifies this, cart, ebike
      ensures View() == Engaged(old(View()), config, accepted, allowed)
    {
      if engaged || emergency {
        return;
      }
      if startup {
        rearm := true;
        return;
      }
      if settings.pending || settings.writes != settings.appliedWrites {
        var applied := ApplySettings(accepted);
        if !applied {
          return;
        }
      }
      Release(allowed);
    }

    // ----- Handlers -----------------------------------------------------------------------------------

    /** The next ENGAGED counts again; the e-bike loses the drive. */
    method DropRearm()
      modifies `rearm, ebike`latched, ebike`wanting
      ensures View() == Rearmed(old(View()), config)
    {
      rearm := false;
      if config.local {
        ebike.Inhibit();
      }
    }

    /** STANDBY acknowledges a trip without releasing the outputs. */
    method Acknowledge()
      modifies `tripped, `stage
      ensures View() == Acknowledged(old(View()))
    {
      tripped, stage := false, FaultCleared(stage);
    }

    /** STANDBY or SLEEP: re-arms, disengages, and STANDBY acknowledges a trip of a disengaged drive. */
    method OnOtherReadiness(value: Readiness)
      requires !value.Engage?
      modifies this, cart, ebike
      ensures View() == AfterReadiness(old(View()), config, value, lastReadiness) && lastReadiness == old(lastReadiness)
    {
      DropRearm();
      ghost var r := View();
      if engaged {
        Disengage();
        assert View() == Disengaged(r);
      } else if value.Standby? {
        Acknowledge();
        assert View() == Acknowledged(r);
      }
    }

    method OnReadiness(value: Readiness, now: int)
      modifies this, cart, ebike
      ensures View() == AfterReadiness(old(View()), config, value, now)
    {
      lastReadiness := now;
      if value.Engage? {
        if config.local {
          return;
        }
        if !engaged && !rearm {
          requested := true;
        }
      } else {
        OnOtherReadiness(value);
      }
    }

    /** RequestAbort() of the startup aid. */
    method AbortAid()
      modifies `startup, `stage
      ensures View() == AidAborted(old(View()))
    {
      if startup {
        startup := false;
        stage := SwitchedOff(stage);
      }
    }

    method StartAid(released: bool, found: Stage)
      modifies `startup, `stage, `tripped
      ensures View() == AidStarted(old(View()), released, found)
    {
      if engaged || emergency || startup || !released {
        return;
      }
      startup, stage, tripped := true, found, false;
    }

    method OnRestart()
      modifies this, cart
      ensures View() == Disengaged(AidAborted(old(View())))
    {
      AbortAid();
      Disengage();
    }

    method OnEmergencyStop()
      modifies this, cart
      ensures View() == AfterMessage(old(View()), config, 0, EmergencyStop)
    {
      emergency := true;
      ghost var stopped := View();
      assert stopped == old(View()).(e := old(ViewEngagement()).(emergency := true));
      OnRestart();
    }

    method WriteRegister(name: Name, encoding: int)
      modifies `settings
      ensures View() == AfterMessage(old(View()), config, 0, RegisterWrite(name, encoding))
    {
      if name in settings.live {
        settings := settings.(live := settings.live[name := encoding], writes := settings.writes + 1);
      }
    }

    method ResetToFactory(factory: Registers)
      modifies `settings
      ensures View() == AfterMessage(old(View()), config, 0, FactoryReset(factory))
    {
      if engaged || startup {
        return;
      }
      if factory.Keys == settings.live.Keys {
        settings := settings.(live := factory, pending := true);
      }
    }

    /** The hardware or the control cycle. */
    method Disturb(d: Disturbance)
      modifies `stage, `tripped
      ensures View() == Disturbed(old(View()), d)
    {
      match d
      case Quiet =>
      case Trip => stage, tripped := Off(true), true;
      case BreakInput => stage := Off(true);
      case EnableLost => stage := SwitchedOff(stage);
    }

    /** The cart subjects. */
    method OnCartMessage(now: int, m: Message)
      requires m.WheelCommand? || m.PedalState? || m.BatteryStatus?
      modifies cart
      ensures View() == AfterMessage(old(View()), config, now, m)
    {
      match m
      case WheelCommand(torque) => cart.OnWheelCommand(torque, now);
      case PedalState(pedals) => cart.OnPedalState(pedals, now);
      case BatteryStatus(status) => cart.OnBatteryStatus(status, now);
    }

    /** The commands that stop something. */
    method OnCommand(m: Message)
      requires m.Restart? || m.EmergencyStop? || m.StartAid? || m.AbortAid?
      modifies this, cart
      ensures View() == AfterMessage(old(View()), config, 0, m)
    {
      match m
      case Restart => OnRestart();
      case EmergencyStop => OnEmergencyStop();
      case StartAid(released, found) => StartAid(released, found);
      case AbortAid => AbortAid();
    }

    method OnMessage(now: int, m: Message)
      modifies this, cart, ebike
      ensures View() == AfterMessage(old(View()), config, now, m)
    {
      match m
      case ReadinessMessage(value) => OnReadiness(value, now);
      case SetpointMessage(id) => SetSetpoint(FromBus(id), now);
      case RegisterWrite(name, encoding) => WriteRegister(name, encoding);
      case FactoryReset(factory) => ResetToFactory(factory);
      case Interrupted(cause) => Disturb(cause);
      case WheelCommand(_) => OnCartMessage(now, m);
      case PedalState(_) => OnCartMessage(now, m);
      case BatteryStatus(_) => OnCartMessage(now, m);
      case _ => OnCommand(m);
    }

    /** The messages and commands of one Spin(), in order. */
    method Dispatch(now: int, messages: seq<Message>)
      modifies this, cart, ebike
      ensures View() == Dispatched(old(View()), config, now, messages)
    {
      for k := 0 to |messages|
        invariant Dispatched(View(), config, now, messages[k..]) == Dispatched(old(View()), config, now, messages)
      {
        assert messages[k..][0] == messages[k] && messages[k..][1..] == messages[k + 1..];
        OnMessage(now, messages[k]);
      }
    }

    // ----- The parts of Spin() ------------------------------------------------------------------------------

    method WatchBus(lost: bool)
      modifies cart
      ensures View() == AfterBus(old(View()), lost)
    {
      if lost {
        cart.OnBusLost();
      }
    }

    method UpdateEbike(now: int, sensed: EbikeControl.Sensed)
      modifies `ebikeEngage, `ebikeTorque, ebike
      ensures View() == old(View()).(ebike := EbikeUpdated(old(View()), now, sensed))
    {
      var result := ebike.Update(now, sensed, EbikeControl.Vehicle(engaged, rearm));
      ebikeEngage, ebikeTorque := result.engage, result.torque;
    }

    /** The drive is asked for, or the e-bike takes it off and drops the re-arm. */
    method FollowEbike(now: int)
      modifies this, cart
      ensures View() == EbikeFollowed(old(View()), now)
    {
      if ebikeEngage {
        lastReadiness := now;
        if !engaged && !rearm {
          requested := true;
        }
      } else {
        rearm := false;
        ghost var r := View();
        assert r == old(View()).(e := old(ViewEngagement()).(rearm := false));
        if engaged {
          Disengage();
        }
      }
    }

    method SpinLocalControl(now: int, sensed: EbikeControl.Sensed)
      modifies this, cart, ebike
      ensures View() == AfterLocalControl(old(View()), config, now, sensed)
    {
      if !config.local {
        return;
      }
      UpdateEbike(now, sensed);
      FollowEbike(now);
    }

    method TakeRequest(accepted: bool, allowed: bool)
      modifies this, cart, ebike
      ensures View() == AfterRequest(old(View()), config, accepted, allowed)
    {
      if requested {
        requested := false;
        Engage(accepted, allowed);
      }
    }

    method SpinStartup(step: AidStep)
      modifies `startup, `startupSeen, `stage, `settings
      ensures View() == AfterStartup(old(View()), step)
    {
      if startup {
        startupSeen := true;
        match step
        case Continues(s) =>
          stage := s;
        case Ends(fault) =>
          startup := false;
          stage := Off(fault);
      } else if startupSeen {
        startupSeen := false;
        settings := settings.(pending := true);
      }
    }

    /** Readiness timeout, then trip and fault. */
    method Supervise(now: int, holds: bool)
      modifies this, cart
      ensures View() == Supervised(old(View()), now, holds)
    {
      if engaged {
        if Elapsed(now, lastReadiness) > timeout && !holds {
          Disengage();
        } else if !stage.Enabled? || tripped {
          rearm := true;
          Disengage();
        }
      }
    }

    /** Torque of the cart and of the e-bike, then the setpoint timeout. */
    method FollowTorque(now: int, output: CartControl.Output)
      modifies `setpoint, `setpointAt
      ensures View() == AfterTorque(old(View()), config, now, output)
    {
      if engaged && !output.mode.Off? {
        SetSetpoint(FromCart(output.torque), now);
      }
      if engaged && config.local && ebikeEngage {
        SetSetpoint(FromEbike(ebikeTorque), now);
      }
      if engaged && setpoint.Setpoint? && Elapsed(now, setpointAt) > timeout {
        ClearSetpoint();
      }
    }

    method SpinEngagement(now: int, speed: real)
      modifies this, cart
      ensures View() == AfterEngagement(old(View()), config, now, speed)
    {
      var output := cart.Update(now, speed, engaged);
      assert View() == WithCart(old(View()), CartUpdated(old(View()), now, speed));
      Supervise(now, output.holdsEngagement);
      FollowTorque(now, output);
    }

    // ----- Settings -----------------------------------------------------------------------------------------

    /** The first register of the table that differs from what runs outside the tunable ones. */
    method FindUntunableChange() returns (change: Option<Name>)
      ensures change == FirstUntunableChange(settings.table, settings.applied, settings.live)
    {
      var untuned := CopyTunable(settings.applied, settings.live);
      for k := 0 to |settings.table|
        invariant FirstDifference(settings.table[k..], settings.applied, untuned)
               == FirstDifference(settings.table, settings.applied, untuned)
      {
        var n := settings.table[k];
        assert settings.table[k..][0] == n && settings.table[k..][1..] == settings.table[k + 1..];
        if n in settings.applied && n in untuned && settings.applied[n] != untuned[n] {
          return Some(n);
        }
      }
      return None;
    }

    /** Hands the live values of some registers to the running loops. */
    method HandToLoops(names: set<Name>)
      requires Covers(settings.table, settings.inForce) && settings.inForce.Keys == settings.live.Keys
      modifies `settings
      ensures settings == old(settings).(inForce := LiveTuning.HandedOver(old(settings).inForce, settings.live, names))
    {
      var was := settings.inForce;
      var live := settings.live;
      var inForce := was;
      for k := 0 to |settings.table|
        invariant settings == old(settings) && inForce.Keys == was.Keys
        invariant forall n :: n in was ==>
                    inForce[n] == if n in names && n in settings.table[..k] then live[n] else was[n]
      {
        var n := settings.table[k];
        assert settings.table[..k + 1] == settings.table[..k] + [n];
        if n in names {
          inForce := inForce[n := live[n]];
        }
      }
      settings := settings.(inForce := inForce);
      assert inForce == LiveTuning.HandedOver(was, live, names);
    }

    /**
     TuneLive(): if only tunable registers changed, every loop runs with the live values afterwards, as
     after a restart; otherwise nothing that runs changes, and the settings wait for the disengage.
     */
    method TuneLive()
      requires engaged && LiveTuning.Inv(settings)
      modifies `settings, `timeout, cart`parameters, ebike
      ensures View() == LiveTuned(old(View()), config)
      ensures SameUntunable(old(settings).applied, old(settings).live) ==>
                && settings.inForce == settings.applied == settings.live == old(settings).live
                && settings.appliedWrites == settings.writes && settings.pending == old(settings).pending
      ensures !SameUntunable(old(settings).applied, old(settings).live) ==>
                && settings.inForce == old(settings).inForce && settings.applied == old(settings).applied
                && settings.pending
    {
      TunedLikeRestarted(settings);
      UntunableChangeIsFound(settings.table, settings.applied, settings.live);
      settings := settings.(checkedWrites := settings.writes);
      var change := FindUntunableChange();
      if change.Some? {
        settings := settings.(pending := true);
        return;
      }
      HandToLoops(CURRENT_GAINS);
      HandToLoops(OUTER_GAINS);
      HandToLoops(NODE_PARAMETERS);
      LoadParameters(settings.live);
      settings := settings.(applied := settings.live, appliedWrites := settings.checkedWrites);
    }

    /** Takes changed settings: live while engaged, by a restart otherwise. */
    method RestartOrTune(accepted: bool)
      requires LiveTuning.Inv(settings)
      modifies this, cart, ebike
      ensures View() == RestartedOrTuned(old(View()), config, accepted)
    {
      if engaged {
        if settings.writes != settings.checkedWrites {
          TuneLive();
        }
      } else if settings.pending || settings.writes != settings.appliedWrites {
        settings := settings.(pending := true);
        var applied := ApplySettings(accepted);
      }
    }

    method TakeSettings(accepted: bool)
      requires LiveTuning.Inv(settings)
      modifies this, cart, ebike
      ensures View() == AfterSettings(old(View()), config, accepted)
    {
      RestartOrTune(accepted);
      settings := settings.(waiting := settings.pending || settings.writes != settings.appliedWrites);
    }

    method HandOver()
      modifies `outer
      ensures View() == DriveNode.HandedOver(old(View()))
    {
      outer := Outer(engaged, setpoint);
    }

    // ----- Spin() ---------------------------------------------------------------------------------------------

    /** Dispatch, bus watch, local control and engage request, with what interrupts them. */
    method SpinFirstHalf(i: Input)
      modifies this, cart, ebike
      ensures View() == FirstHalf(old(View()), config, i)
    {
      Dispatch(i.now, i.messages);
      WatchBus(i.busLost);
      Disturb(i.gaps.0);
      SpinLocalControl(i.now, i.sensed);
      Disturb(i.gaps.1);
      TakeRequest(i.accepted, i.allowed);
    }

    /** Startup aid and supervision. */
    method SpinMiddle(i: Input)
      modifies this, cart
      ensures View() == Middle(old(View()), config, i)
    {
      Disturb(i.gaps.2);
      SpinStartup(i.aid);
      Disturb(i.gaps.3);
      SpinEngagement(i.now, i.speed);
    }

    method SpinLast(i: Input)
      requires LiveTuning.Inv(settings)
      modifies this, cart, ebike
      ensures View() == Last(old(View()), config, i)
    {
      HandOver();
      TakeSettings(i.accepted);
    }

    /** Spin() with everything that it receives and that interrupts it. */
    method Spin(i: Input)
      requires DriveNode.Inv(View())
      modifies this, cart, ebike
      ensures View() == DriveNode.Spin(old(View()), config, i) && DriveNode.Inv(View())
    {
      ghost var was := View();
      FirstHalfKeepsInv(was, config, i);
      SpinFirstHalf(i);
      MiddleKeepsInv(FirstHalf(was, config, i), config, i);
      SpinMiddle(i);
      SpinKeepsInv(was, config, i);
      SpinLast(i);
    }

    /** The Spins of a history. */
    method SpinAll(inputs: seq<Input>)
      requires DriveNode.Inv(View())
      modifies this, cart, ebike
      ensures View() == Run(old(View()), config, inputs) && DriveNode.Inv(View())
    {
      for k := 0 to |inputs|
        invariant DriveNode.Inv(View())
        invariant Run(View(), config, inputs[k..]) == Run(old(View()), config, inputs)
      {
        assert inputs[k..][0] == inputs[k] && inputs[k..][1..] == inputs[k + 1..];
        Spin(inputs[k]);
      }
    }

    /**
     From the start through any history: released outputs have one owner, the outer loop is active
     exactly while engaged, and an emergency stop anywhere in the history leaves everything off.
     */
    method Operate(inputs: seq<Input>)
      requires Initial(View()) && |inputs| > 0
      modifies this, cart, ebike
      ensures !(engaged && startup) && (stage.Enabled? ==> engaged || startup)
      ensures outer.active == engaged
      ensures outer.active && outer.setpoint.Setpoint? ==> outer.setpoint.engages == engages
      ensures forall k :: 0 <= k < |restarts| ==> restarts[k].stage.Off?
      ensures !settings.waiting ==> settings.applied == settings.live == settings.inForce
      ensures (exists k :: 0 <= k < |inputs| && EmergencyStop in inputs[k].messages) ==>
                !engaged && !startup && !stage.Enabled? && !outer.active
    {
      ghost var was := View();
      InitialInv(was);
      SpinAll(inputs);
      OutputsHaveOneOwner(was, config, inputs);
      OldSetpointNeverActs(was, config, inputs);
      DriveNode.NotWaitingMeansApplied(was, config, inputs);
      if exists k :: 0 <= k < |inputs| && EmergencyStop in inputs[k].messages {
        StoppedInHistory(was, config, inputs);
      }
    }
  }
}
