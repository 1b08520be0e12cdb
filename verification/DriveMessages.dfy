/**
 What messages do: from any list of them in one dispatch to what the drive does at the end of its Spin().

 Everything is stated on the list of messages and on the state before the Spin().
 */
module DriveMessages {
  import opened Units
  import CartControl
  import EbikeControl
  import LiveTuning
  import opened DriveNode
  import opened DriveReadiness

  // ----- Reading a list of messages --------------------------------------------------------------

  /** The setpoint that the bus sent last. */
  function LastSetpoint(messages: seq<Message>): (r: Option<int>) {
    if |messages| == 0 then None
    else
      var later := LastSetpoint(messages[1..]);
      if later.Some? then later
      else if messages[0].SetpointMessage? then Some(messages[0].id) else None
  }

  /** The messages for the cart, in their order. */
  function CartEvents(messages: seq<Message>, now: int): (r: seq<CartControl.Event>) {
    if |messages| == 0 then [] else CartEvent(messages[0], now) + CartEvents(messages[1..], now)
  }

  function CartEvent(m: Message, now: int): (r: seq<CartControl.Event>) {
    match m
    case WheelCommand(torque) => [CartControl.Command(torque, now)]
    case PedalState(pedals) => [CartControl.PedalState(pedals, now)]
    case BatteryStatus(status) => [CartControl.Status(status, now)]
    case _ => []
  }

  /** The registers after the writes, and, in a drive that is off, after the factory resets. */
  function LiveAfter(live: LiveTuning.Registers, off: bool, messages: seq<Message>): (r: LiveTuning.Registers)
    decreases |messages|
  {
    if |messages| == 0 then live
    else
      var m := messages[0];
      var first := if m.RegisterWrite? && m.name in live then live[m.name := m.encoding]
                   else if m.FactoryReset? && off && m.factory.Keys == live.Keys then m.factory
                   else live;
      LiveAfter(first, off, messages[1..])
  }

  predicate AnyReadiness(messages: seq<Message>) {
    exists k :: 0 <= k < |messages| && messages[k].ReadinessMessage?
  }

  predicate NoneInterrupts(messages: seq<Message>) { forall k :: 0 <= k < |messages| ==> !messages[k].Interrupted? }

  /** Some ENGAGED arrives that no re-arm blocks. */
  predicate AskedBy(rearm: bool, messages: seq<Message>) {
    exists k :: 0 <= k < |messages| && AsksAt(rearm, messages, k)
  }

  predicate AsksAt(rearm: bool, messages: seq<Message>, k: nat)
    requires k < |messages|
  {
    && messages[k].ReadinessMessage? && messages[k].value.Engage?
    && (!rearm || exists j :: 0 <= j < k && Rearms(messages[j]))
  }

  lemma AskedBySplits(rearm: bool, messages: seq<Message>)
    requires |messages| > 0
    ensures var (m, rest) := (messages[0], messages[1..]);
            AskedBy(rearm, messages)
            <==> (m.ReadinessMessage? && m.value.Engage? && !rearm) || AskedBy(rearm && !Rearms(m), rest)
  {
    var (m, rest) := (messages[0], messages[1..]);
    var after := rearm && !Rearms(m);
    if k :| 0 <= k < |rest| && AsksAt(after, rest, k) {
      if after {
        var j :| 0 <= j < k && Rearms(rest[j]);
        assert Rearms(messages[j + 1]);
      } else if rearm {
        assert Rearms(messages[0]);
      }
      assert AsksAt(rearm, messages, k + 1);
    }
    if m.ReadinessMessage? && m.value.Engage? && !rearm {
      assert AsksAt(rearm, messages, 0);
    }
    if k :| 0 <= k < |messages| && AsksAt(rearm, messages, k) {
      if k > 0 {
        if after {
          var j :| 0 <= j < k && Rearms(messages[j]);
          assert Rearms(rest[j - 1]);
        }
        assert AsksAt(after, rest, k - 1);
      }
    }
  }

  lemma SplitLists(messages: seq<Message>)
    requires |messages| > 0
    ensures NoneTakesOff(messages) <==> !TakesOff(messages[0]) && NoneTakesOff(messages[1..])
    ensures NoneStartsAid(messages) <==> !messages[0].StartAid? && NoneStartsAid(messages[1..])
    ensures NoneInterrupts(messages) <==> !messages[0].Interrupted? && NoneInterrupts(messages[1..])
    ensures NoRearmMessage(messages) <==> !Rearms(messages[0]) && NoRearmMessage(messages[1..])
    ensures AnyReadiness(messages) <==> messages[0].ReadinessMessage? || AnyReadiness(messages[1..])
  {
    var rest := messages[1..];
    assert messages == [messages[0]] + rest;
    if k :| 0 <= k < |rest| && rest[k].ReadinessMessage? {
      assert messages[k + 1].ReadinessMessage?;
    }
    if k :| 0 <= k < |messages| && messages[k].ReadinessMessage? {
      assert k > 0 ==> rest[k - 1].ReadinessMessage?;
    }
  }

  // ----- One dispatch of an engaged drive ----------------------------------------------------------

  /** The state that the messages of one dispatch lead to, field by field. */
  predicate EngagedDispatch(s: State, n: State, now: int, messages: seq<Message>) {
    && n.e == s.e.(lastReadiness := if AnyReadiness(messages) then now else s.e.lastReadiness)
    && n.d == (match LastSetpoint(messages)
               case Some(id) => s.d.(setpoint := Setpoint(FromBus(id), s.e.engages), at := now)
               case None => s.d)
    && n.cart == s.cart.(control := CartControl.Run(s.cart.control, s.cart.parameters, CartEvents(messages, now)))
    && n.settings.live == LiveAfter(s.settings.live, false, messages)
    && n.ebike == s.ebike && n.timeout == s.timeout && !n.p.startup
    && (NoneInterrupts(messages) ==> n.p == s.p)
  }

  lemma EngagedMessage(s: State, c: Config, now: int, m: Message)
    requires s.e.engaged && !s.p.startup && !TakesOff(m)
    ensures var n := AfterMessage(s, c, now, m);
            && n.e == s.e.(lastReadiness := if m.ReadinessMessage? then now else s.e.lastReadiness)
            && n.d == (if m.SetpointMessage? then s.d.(setpoint := Setpoint(FromBus(m.id), s.e.engages), at := now)
                       else s.d)
            && n.settings.live == (if m.RegisterWrite? && m.name in s.settings.live
                                   then s.settings.live[m.name := m.encoding] else s.settings.live)
            && n.ebike == s.ebike && n.timeout == s.timeout && !n.p.startup && (!m.Interrupted? ==> n.p == s.p)
  {
  }

  lemma CartMessage(s: State, c: Config, now: int, m: Message)
    requires s.e.engaged && !TakesOff(m)
    ensures var n := AfterMessage(s, c, now, m);
            n.cart == s.cart.(control := CartControl.Run(s.cart.control, s.cart.parameters, CartEvent(m, now)))
  {
    var e := CartEvent(m, now);
    if |e| > 0 {
      assert e[1..] == [];
    }
  }

  lemma {:induction false} CartRunSplits(k: CartControl.State, p: CartControl.Parameters,
                                         first: seq<CartControl.Event>, second: seq<CartControl.Event>)
    ensures CartControl.Run(k, p, first + second) == CartControl.Run(CartControl.Run(k, p, first), p, second)
    decreases |first|
  {
    if |first| == 0 {
      assert first + second == second;
    } else {
      assert (first + second)[0] == first[0] && (first + second)[1..] == first[1..] + second;
      CartRunSplits(CartControl.AfterEvent(k, p, first[0]), p, first[1..], second);
    }
  }

  /**
   What a dispatch that does not take an engaged drive off does to it: the last setpoint counts, the cart
   takes its messages in their order, the readiness is renewed, and registers are written.
   */
  lemma {:induction false} DispatchWhileEngaged(s: State, c: Config, now: int, messages: seq<Message>)
    requires s.e.engaged && !s.p.startup && NoneTakesOff(messages)
    ensures EngagedDispatch(s, Dispatched(s, c, now, messages), now, messages)
    decreases |messages|
  {
    if |messages| != 0 {
      var (m, rest) := (messages[0], messages[1..]);
      var n := AfterMessage(s, c, now, m);
      SplitLists(messages);
      EngagedMessage(s, c, now, m);
      CartMessage(s, c, now, m);
      DispatchWhileEngaged(n, c, now, rest);
      CartRunSplits(s.cart.control, s.cart.parameters, CartEvent(m, now), CartEvents(rest, now));
    }
  }

  // ----- One Spin() of an engaged drive without a local control ---------------------------------------

  /** Nothing disturbs the power stage. */
  predicate Undisturbed(i: Input) { i.gaps == (Quiet, Quiet, Quiet, Quiet) && NoneInterrupts(i.messages) }

  /** The cart of an engaged drive after its update: the messages in order, a bus-off, the update. */
  function CartAfter(s: State, i: Input): (r: CartControl.State) {
    var heard := CartControl.Run(s.cart.control, s.cart.parameters, CartEvents(i.messages, i.now));
    CartControl.AfterUpdate(if i.busLost then CartControl.AfterBusLost(heard) else heard, s.cart.parameters,
                            i.now, i.speed, true)
  }

  /** What the outer loop shall work on: the cart once a command came, the newest setpoint, one that is in time. */
  function ToFollow(s: State, i: Input): (r: Setpoint) {
    var output := CartControl.OutputOf(CartAfter(s, i), s.cart.parameters);
    var last := LastSetpoint(i.messages);
    if !output.mode.Off? then Setpoint(FromCart(output.torque), s.e.engages)
    else if last.Some? then Setpoint(FromBus(last.value), s.e.engages)
    else if s.d.setpoint.Setpoint? && Elapsed(i.now, s.d.at) <= s.timeout then s.d.setpoint
    else NoSetpoint
  }

  /** The readiness came now or is in time, or the cart holds the engagement. */
  predicate KeptEngaged(s: State, i: Input) {
    || AnyReadiness(i.messages)
    || Elapsed(i.now, s.e.lastReadiness) <= s.timeout
    || CartControl.OutputOf(CartAfter(s, i), s.cart.parameters).holdsEngagement
  }

  lemma BusAsking(s: State, c: Config, i: Input)
    requires !c.local && Undisturbed(i)
    ensures Asking(s, c, i) == AfterBus(Dispatched(s, c, i.now, i.messages), i.busLost)
  {
  }

  lemma QuietMiddle(s: State, c: Config, i: Input)
    requires Undisturbed(i)
    ensures Middle(s, c, i) == AfterEngagement(AfterStartup(s, i.aid), c, i.now, i.speed)
  {
  }

  lemma StartupOver(s: State, aid: AidStep)
    requires !s.p.startup
    ensures var n := AfterStartup(s, aid);
            && n.e == s.e && n.d == s.d && n.timeout == s.timeout && n.cart == s.cart && n.ebike == s.ebike
            && n.p == s.p.(startupSeen := false) && n.settings == s.settings.(pending := n.settings.pending)
            && (n.settings.pending <==> s.settings.pending || s.p.startupSeen)
  {
  }

  lemma EngagementOf(s: State, c: Config, now: int, speed: real)
    requires s.e.engaged && s.p.stage.Enabled? && !s.p.tripped && !s.p.startup && !c.local
    ensures var n := AfterEngagement(s, c, now, speed);
            var control := CartUpdated(s, now, speed);
            var output := CartControl.OutputOf(control, s.cart.parameters);
            && (n.e.engaged <==> Elapsed(now, s.e.lastReadiness) <= s.timeout || output.holdsEngagement)
            && n.e == s.e.(engaged := n.e.engaged)
            && (n.e.engaged ==>
                  && n.p == s.p && n.cart == s.cart.(control := control)
                  && n.d.setpoint == if !output.mode.Off? then Setpoint(FromCart(output.torque), s.e.engages)
                                     else if s.d.setpoint.Setpoint? && Elapsed(now, s.d.at) <= s.timeout
                                     then s.d.setpoint else NoSetpoint)
            && (!n.e.engaged ==> n.p.stage == Off(false) && n.d.setpoint.NoSetpoint?)
  {
  }

  /**
   One Spin() of an engaged drive on the bus that no message takes off: it stays engaged exactly while it is
   kept so, and then works on the cart, the newest setpoint or one that is in time; otherwise it is off.
   */
  lemma EngagedSpin(s: State, c: Config, i: Input)
    requires !c.local && s.e.engaged && !s.e.requested && s.p.stage.Enabled? && !s.p.tripped && !s.p.startup
    requires Undisturbed(i) && NoneTakesOff(i.messages)
    ensures var n := Spin(s, c, i);
            && (n.e.engaged <==> KeptEngaged(s, i))
            && n.e.engages == s.e.engages && n.e.rearm == s.e.rearm && !n.e.requested
            && n.d.outer == Outer(n.e.engaged, if n.e.engaged then ToFollow(s, i) else NoSetpoint)
            && (n.e.engaged ==> n.p.stage.Enabled? && n.cart.control == CartAfter(s, i))
            && (!n.e.engaged ==> n.p.stage == Off(false))
  {
    var d := Dispatched(s, c, i.now, i.messages);
    DispatchWhileEngaged(s, c, i.now, i.messages);
    BusAsking(s, c, i);
    var f := AfterBus(d, i.busLost);
    assert FirstHalf(s, c, i) == f;
    QuietMiddle(f, c, i);
    StartupOver(f, i.aid);
    var a := AfterStartup(f, i.aid);
    EngagementOf(a, c, i.now, i.speed);
    assert CartUpdated(a, i.now, i.speed) == CartAfter(s, i);
    EndOfSpin(Middle(f, c, i), c, i);
  }

  /** The end of a Spin() hands over the demand and leaves stage and cart alone. */
  lemma EndOfSpin(s: State, c: Config, i: Input)
    ensures var n := Last(s, c, i);
            && n.e == s.e && n.d == s.d.(outer := Outer(s.e.engaged, s.d.setpoint))
            && n.p.stage == s.p.stage && n.cart.control == s.cart.control && n.settings.live == s.settings.live
  {
  }

  // ----- One Spin() of an engaged drive with a local control -----------------------------------------------

  /** The update of the e-bike in this Spin(). */
  function RiderAfter(s: State, i: Input): (r: EbikeControl.State) {
    EbikeControl.AfterUpdate(s.ebike.control, s.ebike.parameters, i.now, i.sensed,
                             EbikeControl.Vehicle(s.e.engaged, s.e.rearm))
  }

  lemma LocalAsking(s: State, c: Config, i: Input)
    requires c.local && Undisturbed(i)
    ensures Asking(s, c, i)
         == AfterLocalControl(AfterBus(Dispatched(s, c, i.now, i.messages), i.busLost), c, i.now, i.sensed)
  {
  }

  lemma LocalEngaged(s: State, c: Config, now: int, sensed: EbikeControl.Sensed)
    requires c.local && s.e.engaged && !s.e.requested
    ensures var n := AfterLocalControl(s, c, now, sensed);
            && n.ebike == EbikeUpdated(s, now, sensed)
            && (if n.ebike.engage then n == s.(ebike := n.ebike, e := s.e.(lastReadiness := now))
                else n == Disengaged(s.(ebike := n.ebike, e := s.e.(rearm := false))))
  {
  }

  lemma LocalTorque(s: State, c: Config, now: int, speed: real)
    requires s.e.engaged && s.p.stage.Enabled? && !s.p.tripped && c.local && s.ebike.engage && s.e.lastReadiness == now
    ensures var n := AfterEngagement(s, c, now, speed);
            && n.e == s.e && n.p == s.p && n.ebike == s.ebike
            && n.d == s.d.(setpoint := Setpoint(FromEbike(s.ebike.torque), s.e.engages), at := now)
  {
  }

  lemma OffStaysOff(s: State, c: Config, i: Input)
    requires !s.e.engaged && Undisturbed(i)
    ensures var n := Last(Middle(s, c, i), c, i);
            && n.e == s.e && n.d.outer == Outer(false, s.d.setpoint)
            && (!s.p.startup ==> n.p.stage == s.p.stage)
  {
    QuietMiddle(s, c, i);
    EndOfSpin(Middle(s, c, i), c, i);
  }

  lemma LocalFirstHalf(s: State, c: Config, i: Input)
    requires c.local && s.e.engaged && !s.e.requested && !s.p.startup && Undisturbed(i) && NoneTakesOff(i.messages)
    ensures var (f, u) := (FirstHalf(s, c, i), RiderAfter(s, i));
            && f.ebike.engage == u.output.engage && f.ebike.torque == u.output.torque
            && (if u.output.engage then f.e == s.e.(lastReadiness := i.now) && f.p == s.p
                else f.e.engages == s.e.engages && !f.e.engaged && !f.e.rearm && f.d.setpoint.NoSetpoint?
                     && f.p == s.p.(stage := SwitchedOff(s.p.stage)))
  {
    DispatchWhileEngaged(s, c, i.now, i.messages);
    LocalAsking(s, c, i);
    var d := AfterBus(Dispatched(s, c, i.now, i.messages), i.busLost);
    LocalEngaged(d, c, i.now, i.sensed);
    assert EbikeUpdated(d, i.now, i.sensed).control == RiderAfter(s, i);
    assert FirstHalf(s, c, i) == AfterLocalControl(d, c, i.now, i.sensed);
  }

  /** The rest of a Spin() in which the e-bike asked for the engaged drive. */
  lemma RidesOn(f: State, c: Config, i: Input)
    requires c.local && f.e.engaged && f.p.stage.Enabled? && !f.p.tripped && !f.p.startup && Undisturbed(i)
    requires f.ebike.engage && f.e.lastReadiness == i.now
    ensures var n := Last(Middle(f, c, i), c, i);
            && n.e == f.e && n.p.stage.Enabled?
            && n.d.outer == Outer(true, Setpoint(FromEbike(f.ebike.torque), f.e.engages))
  {
    QuietMiddle(f, c, i);
    StartupOver(f, i.aid);
    LocalTorque(AfterStartup(f, i.aid), c, i.now, i.speed);
    EndOfSpin(Middle(f, c, i), c, i);
  }

  /**
   One Spin() of an engaged e-bike that no message takes off: it stays engaged exactly while its update asks
   for the drive, and works on the torque of that update, whatever came from the bus.
   */
  lemma EngagedEbikeSpin(s: State, c: Config, i: Input)
    requires c.local && s.e.engaged && !s.e.requested && s.p.stage.Enabled? && !s.p.tripped && !s.p.startup
    requires Undisturbed(i) && NoneTakesOff(i.messages)
    ensures var (n, u) := (Spin(s, c, i), RiderAfter(s, i));
            && (n.e.engaged <==> u.output.engage)
            && n.d.outer == (if u.output.engage then Outer(true, Setpoint(FromEbike(u.output.torque), s.e.engages))
                             else NOTHING)
            && (n.e.engaged ==> n.e.lastReadiness == i.now && n.p.stage.Enabled?)
            && (!n.e.engaged ==> n.p.stage == Off(false) && !n.e.rearm)
  {
    LocalFirstHalf(s, c, i);
    if RiderAfter(s, i).output.engage {
      RidesOn(FirstHalf(s, c, i), c, i);
    } else {
      OffStaysOff(FirstHalf(s, c, i), c, i);
    }
  }

  // ----- One dispatch of a drive that is off ----------------------------------------------------------------

  /** A disengaged drive after any messages, without the startup aid. */
  predicate OffDispatch(s: State, n: State, now: int, messages: seq<Message>) {
    && !n.e.engaged && n.e.engages == s.e.engages
    && (n.e.rearm <==> s.e.rearm && NoRearmMessage(messages))
    && (n.e.requested <==> s.e.requested || AskedBy(s.e.rearm, messages))
    && (n.e.emergency <==> s.e.emergency || EmergencyStop in messages)
    && n.e.lastReadiness == (if AnyReadiness(messages) then now else s.e.lastReadiness)
    && n.timeout == s.timeout && n.ebike.parameters == s.ebike.parameters
    && n.cart.parameters == s.cart.parameters && n.settings.applied == s.settings.applied
  }

  lemma OffMessage(s: State, c: Config, now: int, m: Message)
    requires !c.local && !s.e.engaged
    ensures var n := AfterMessage(s, c, now, m);
            && !n.e.engaged && n.e.engages == s.e.engages
            && n.e.rearm == (s.e.rearm && !Rearms(m))
            && n.e.requested == (s.e.requested || (m.ReadinessMessage? && m.value.Engage? && !s.e.rearm))
            && n.e.emergency == (s.e.emergency || m.EmergencyStop?)
            && n.e.lastReadiness == (if m.ReadinessMessage? then now else s.e.lastReadiness)
            && n.timeout == s.timeout && n.ebike.parameters == s.ebike.parameters
            && n.cart.parameters == s.cart.parameters && n.settings.applied == s.settings.applied
  {
  }

  lemma {:induction false} DispatchWhileOff(s: State, c: Config, now: int, messages: seq<Message>)
    requires !c.local && !s.e.engaged
    ensures OffDispatch(s, Dispatched(s, c, now, messages), now, messages)
    decreases |messages|
  {
    if |messages| == 0 {
      assert !AskedBy(s.e.rearm, messages);
    } else {
      var n := AfterMessage(s, c, now, messages[0]);
      SplitLists(messages);
      AskedBySplits(s.e.rearm, messages);
      OffMessage(s, c, now, messages[0]);
      DispatchWhileOff(n, c, now, messages[1..]);
      assert EmergencyStop in messages <==> messages[0].EmergencyStop? || EmergencyStop in messages[1..] by {
        assert messages == [messages[0]] + messages[1..];
      }
    }
  }

  lemma OffWrite(s: State, c: Config, now: int, m: Message)
    requires !s.e.engaged && !s.p.startup && !m.StartAid?
    ensures var (n, live) := (AfterMessage(s, c, now, m), s.settings.live);
            && !n.e.engaged && !n.p.startup
            && n.settings.live == (if m.RegisterWrite? && m.name in live then live[m.name := m.encoding]
                                   else if m.FactoryReset? && m.factory.Keys == live.Keys then m.factory else live)
  {
  }

  /** Factory resets and register writes of a drive that is off, with no startup run under way. */
  lemma {:induction false} WritesWhileOff(s: State, c: Config, now: int, messages: seq<Message>)
    requires !s.e.engaged && !s.p.startup && NoneStartsAid(messages)
    ensures var n := Dispatched(s, c, now, messages);
            n.settings.live == LiveAfter(s.settings.live, true, messages) && !n.p.startup
    decreases |messages|
  {
    if |messages| != 0 {
      var n := AfterMessage(s, c, now, messages[0]);
      SplitLists(messages);
      OffWrite(s, c, now, messages[0]);
      WritesWhileOff(n, c, now, messages[1..]);
    }
  }

  /** STANDBY acknowledges a trip and a fault of a drive that is off, SLEEP does not; both re-arm it. */
  lemma {:induction false} StandbyAcknowledges(s: State, c: Config, now: int, values: seq<Readiness>)
    requires !s.e.engaged
    ensures var n := Dispatched(s, c, now, Readings(values));
            && n.p.tripped == (s.p.tripped && Standby !in values)
            && n.p.stage == (if Standby in values && s.p.stage.Off? then Off(false) else s.p.stage)
            && (n.e.rearm <==> s.e.rearm && AllEngage(values)) && !n.e.engaged
    decreases |values|
  {
    if |values| != 0 {
      var messages := Readings(values);
      assert messages[0] == ReadinessMessage(values[0]) && messages[1..] == Readings(values[1..]);
      StandbyAcknowledges(AfterMessage(s, c, now, messages[0]), c, now, values[1..]);
      assert values == [values[0]] + values[1..];
    }
  }

  // ----- Engaging --------------------------------------------------------------------------------------------

  /** The outputs may be released now: nothing refuses it, and waiting settings are taken by the hardware. */
  predicate MayEngage(s: State, i: Input) {
    !s.e.emergency && !s.p.startup && (SettingsWait(s) ==> i.accepted) && i.allowed
  }

  /** A startup run has the outputs, or the external enable or the hold-off refuses them. */
  predicate RefusedOutputs(s: State, i: Input) { s.p.startup || ((SettingsWait(s) ==> i.accepted) && !i.allowed) }

  lemma EngageReleases(s: State, c: Config, i: Input)
    requires !s.e.engaged && s.e.requested && s.p.stage.Off? && MayEngage(s, i)
    ensures var n := AfterRequest(s, c, i.accepted, i.allowed);
            && n.e == s.e.(engaged := true, requested := false, engages := s.e.engages + 1)
            && n.p.stage.Enabled? && !n.p.tripped && n.p.startup == s.p.startup
            && n.d.setpoint.NoSetpoint? && n.d.outer == NOTHING && n.cart.control.mode.Off?
            && n.p.running == (if SettingsWait(s) then true else s.p.running)
  {
  }

  lemma EngageRefused(s: State, c: Config, i: Input)
    requires !s.e.engaged && s.e.requested && s.p.stage.Off? && !MayEngage(s, i)
    ensures var n := AfterRequest(s, c, i.accepted, i.allowed);
            && n.e == s.e.(requested := false, rearm := n.e.rearm) && n.p.stage.Off? && n.p.startup == s.p.startup
            && (!s.p.startup && (SettingsWait(s) ==> i.accepted) && !s.e.emergency ==>
                  n.p.stage == Off(false) && !n.p.tripped)
            && (n.e.rearm <==> s.e.rearm || (!s.e.emergency && RefusedOutputs(s, i)))
  {
  }

  /** An engage clears what was there before and releases the outputs; a refused one waits for a re-arm. */
  lemma EngageOutcome(s: State, c: Config, i: Input)
    requires !s.e.engaged && s.e.requested && s.p.stage.Off?
    ensures var n := AfterRequest(s, c, i.accepted, i.allowed);
            && (n.e.engaged <==> MayEngage(s, i)) && !n.e.requested && n.e.lastReadiness == s.e.lastReadiness
            && n.p.startup == s.p.startup
            && (n.e.engaged ==>
                  && n.p.stage.Enabled? && !n.p.tripped && n.e.engages == s.e.engages + 1 && n.e.rearm == s.e.rearm
                  && n.d.setpoint.NoSetpoint? && n.d.outer == NOTHING && n.cart.control.mode.Off?
                  && n.p.running == (if SettingsWait(s) then true else s.p.running))
            && (!n.e.engaged ==>
                  && n.p.stage.Off? && n.e.engages == s.e.engages
                  && (!s.p.startup && (SettingsWait(s) ==> i.accepted) && !s.e.emergency ==>
                        n.p.stage == Off(false) && !n.p.tripped)
                  && (n.e.rearm <==> s.e.rearm || (!s.e.emergency && RefusedOutputs(s, i))))
  {
    if MayEngage(s, i) {
      EngageReleases(s, c, i);
    } else {
      EngageRefused(s, c, i);
    }
  }

  /** After an engage the cart may act at once, an old setpoint of the bus never. */
  lemma JustEngaged(s: State, c: Config, i: Input)
    requires !c.local && s.e.engaged && s.p.stage.Enabled? && !s.p.tripped && !s.p.startup && Undisturbed(i)
    requires s.e.lastReadiness == i.now && s.d.setpoint.NoSetpoint? && s.cart.control.mode.Off?
    ensures var n := Last(Middle(s, c, i), c, i);
            var (k, p) := (s.cart.control, s.cart.parameters);
            && n.e == s.e && n.p.stage.Enabled?
            && n.d.outer == Outer(true, if CartControl.Fresh(p, k.hasCommand, k.commandAt, i.now)
                                        then Setpoint(FromCart(CartControl.ToCart(p, k.commandTorque)), s.e.engages)
                                        else NoSetpoint)
  {
    QuietMiddle(s, c, i);
    StartupOver(s, i.aid);
    var a := AfterStartup(s, i.aid);
    CartControl.ModeFollowsInputs(a.cart.control, a.cart.parameters, i.now, i.speed);
    EngagementOf(a, c, i.now, i.speed);
    EndOfSpin(Middle(s, c, i), c, i);
  }

  /**
   Whatever the messages of a dispatch are: exactly when the Spin() engages a drive on the bus. A RESTART or a
   STANDBY behind an ENGAGED does not withdraw it, an EMERGENCY_STOP anywhere does.
   */
  lemma SpinEngagesIff(s: State, c: Config, i: Input)
    requires Inv(s) && !c.local && !s.e.engaged && !s.e.requested && Undisturbed(i)
    ensures var (n, d) := (Spin(s, c, i), Dispatched(s, c, i.now, i.messages));
            && (n.e.engaged <==>
                  && AskedBy(s.e.rearm, i.messages) && !s.e.emergency && EmergencyStop !in i.messages
                  && !d.p.startup && (SettingsWait(d) ==> i.accepted) && i.allowed)
            && (n.e.engaged ==>
                  && n.e.engages == s.e.engages + 1 && n.p.stage.Enabled?
                  && (n.d.outer.setpoint.Setpoint? ==> n.d.outer.setpoint.source.FromCart?))
  {
    var d := AfterBus(Dispatched(s, c, i.now, i.messages), i.busLost);
    DispatchWhileOff(s, c, i.now, i.messages);
    DispatchedKeepsInv(s, c, i.now, i.messages);
    BusAsking(s, c, i);
    var f := FirstHalf(s, c, i);
    AskedRenews(s.e.rearm, i.messages);
    if d.e.requested && !d.p.startup {
      assert d.p.stage.Off?;
      EngageOutcome(d, c, i);
    }
    if f.e.engaged {
      JustEngaged(f, c, i);
    } else {
      OffStaysOff(f, c, i);
    }
  }

  lemma AskedRenews(rearm: bool, messages: seq<Message>)
    ensures AskedBy(rearm, messages) ==> AnyReadiness(messages)
  {
    if k :| 0 <= k < |messages| && AsksAt(rearm, messages, k) {
      assert messages[k].ReadinessMessage?;
    }
  }

  // ----- Settings --------------------------------------------------------------------------------------------

  lemma DisturbedKeepsSettings(s: State, d: Disturbance)
    ensures Disturbed(s, d).settings == s.settings
  {
  }

  lemma AskingKeepsSettings(s: State, c: Config, i: Input)
    ensures Asking(s, c, i).settings == Dispatched(s, c, i.now, i.messages).settings
  {
    DisturbedKeepsSettings(AfterBus(Dispatched(s, c, i.now, i.messages), i.busLost), i.gaps.0);
    LocalControlFacts(Heard(s, c, i), c, i.now, i.sensed);
    DisturbedKeepsSettings(AfterLocalControl(Heard(s, c, i), c, i.now, i.sensed), i.gaps.1);
  }

  /** Only messages write registers. */
  lemma SpinKeepsLive(s: State, c: Config, i: Input)
    ensures Spin(s, c, i).settings.live == Dispatched(s, c, i.now, i.messages).settings.live
  {
    var f := FirstHalf(s, c, i);
    AskingKeepsSettings(s, c, i);
    RequestKeepsLive(Asking(s, c, i), c, i);
    MiddleKeepsLive(f, c, i);
    EndOfSpin(Middle(f, c, i), c, i);
  }

  lemma RequestKeepsLive(s: State, c: Config, i: Input)
    ensures AfterRequest(s, c, i.accepted, i.allowed).settings.live == s.settings.live
  {
  }

  lemma MiddleKeepsLive(s: State, c: Config, i: Input)
    ensures Middle(s, c, i).settings.live == s.settings.live
  {
    var a := AfterStartup(Disturbed(s, i.gaps.2), i.aid);
    assert a.settings.live == s.settings.live;
    EngagementFacts(Disturbed(a, i.gaps.3), c, i.now, i.speed);
  }

  /** After every Spin() a drive that is off, with the outputs off, runs with the live settings. */
  lemma OffRunsLive(s: State, c: Config, i: Input)
    requires Inv(s)
    ensures var n := Spin(s, c, i);
            !n.e.engaged && !n.p.stage.Enabled? ==>
              && n.settings.applied == n.settings.live == n.settings.inForce && !n.settings.waiting
              && n.settings.live == Dispatched(s, c, i.now, i.messages).settings.live
  {
    FirstHalfKeepsInv(s, c, i);
    var f := FirstHalf(s, c, i);
    MiddleKeepsInv(f, c, i);
    LastApplies(Middle(f, c, i), c, i);
    SpinKeepsLive(s, c, i);
  }

  lemma LastApplies(s: State, c: Config, i: Input)
    requires Inv(s)
    ensures var n := Last(s, c, i);
            !n.e.engaged && !n.p.stage.Enabled? ==>
              n.settings.applied == n.settings.live == n.settings.inForce && !n.settings.waiting
  {
  }

  /** The drive node, the cart and the e-bike use what the applied settings say. */
  predicate ParametersInUse(s: State, c: Config) {
    && s.timeout == c.timeoutOf(s.settings.applied)
    && s.cart.parameters == c.cartOf(s.settings.applied)
    && (c.local ==> s.ebike.parameters == c.ebikeOf(s.settings.applied))
  }

  /** The e-bike reads registers that need a restart only, as its configuration does. */
  ghost predicate EbikeNeedsRestart(c: Config) {
    forall a, b :: LiveTuning.SameUntunable(a, b) ==> c.ebikeOf(a) == c.ebikeOf(b)
  }

  lemma {:induction false} DispatchKeepsParameters(s: State, c: Config, now: int, messages: seq<Message>)
    requires ParametersInUse(s, c)
    ensures ParametersInUse(Dispatched(s, c, now, messages), c)
    decreases |messages|
  {
    if |messages| != 0 {
      assert ParametersInUse(AfterMessage(s, c, now, messages[0]), c);
      DispatchKeepsParameters(AfterMessage(s, c, now, messages[0]), c, now, messages[1..]);
    }
  }

  lemma RequestKeepsParameters(s: State, c: Config, accepted: bool, allowed: bool)
    requires ParametersInUse(s, c)
    ensures ParametersInUse(AfterRequest(s, c, accepted, allowed), c)
  {
  }

  lemma FirstHalfKeepsParameters(s: State, c: Config, i: Input)
    requires ParametersInUse(s, c)
    ensures ParametersInUse(FirstHalf(s, c, i), c)
  {
    DispatchKeepsParameters(s, c, i.now, i.messages);
    assert ParametersInUse(Heard(s, c, i), c);
    assert ParametersInUse(Asking(s, c, i), c);
    RequestKeepsParameters(Asking(s, c, i), c, i.accepted, i.allowed);
  }

  lemma EngagementKeepsParameters(s: State, c: Config, now: int, speed: real)
    requires ParametersInUse(s, c)
    ensures ParametersInUse(AfterEngagement(s, c, now, speed), c)
  {
  }

  lemma MiddleKeepsParameters(s: State, c: Config, i: Input)
    requires ParametersInUse(s, c)
    ensures ParametersInUse(Middle(s, c, i), c)
  {
    var a := AfterStartup(Disturbed(s, i.gaps.2), i.aid);
    assert ParametersInUse(a, c);
    EngagementKeepsParameters(Disturbed(a, i.gaps.3), c, i.now, i.speed);
  }

  /** Live tuning leaves the e-bike out, and still its parameters are those of the applied settings. */
  lemma TunedKeepsParameters(s: State, c: Config)
    requires ParametersInUse(s, c) && EbikeNeedsRestart(c) && LiveTuning.Inv(s.settings) && s.e.engaged
    ensures ParametersInUse(LiveTuned(s, c), c)
  {
    LiveTuning.UntunableChangeIsFound(s.settings.table, s.settings.applied, s.settings.live);
  }

  lemma LastKeepsParameters(s: State, c: Config, i: Input)
    requires ParametersInUse(s, c) && EbikeNeedsRestart(c) && LiveTuning.Inv(s.settings)
    ensures ParametersInUse(Last(s, c, i), c)
  {
    var h := HandedOver(s);
    assert ParametersInUse(h, c);
    if h.e.engaged {
      TunedKeepsParameters(h, c);
    }
  }

  /** Over every run the parameters in use are those of the applied settings, tuned live or restarted. */
  lemma {:induction false} RunKeepsParameters(s: State, c: Config, inputs: seq<Input>)
    requires Inv(s) && ParametersInUse(s, c) && EbikeNeedsRestart(c)
    ensures ParametersInUse(Run(s, c, inputs), c)
    decreases |inputs|
  {
    if |inputs| != 0 {
      var i := inputs[0];
      FirstHalfKeepsParameters(s, c, i);
      FirstHalfKeepsInv(s, c, i);
      var f := FirstHalf(s, c, i);
      MiddleKeepsParameters(f, c, i);
      MiddleKeepsInv(f, c, i);
      LastKeepsParameters(Middle(f, c, i), c, i);
      SpinKeepsInv(s, c, i);
      RunKeepsParameters(Spin(s, c, i), c, inputs[1..]);
    }
  }

  lemma LastTunes(s: State, c: Config, i: Input)
    requires Inv(s) && s.e.engaged && s.settings.writes != s.settings.checkedWrites
    ensures var n := Last(s, c, i);
            if LiveTuning.SameUntunable(s.settings.applied, s.settings.live)
            then n.settings.applied == n.settings.inForce == s.settings.live
            else n.settings.applied == s.settings.applied == n.settings.inForce && n.settings.waiting
  {
    LiveTuning.TunedLikeRestarted(s.settings);
  }

  /**
   Register writes to an engaged drive: if all registers that differ from what runs are tunable, the values
   written are in force at the end of the Spin(); otherwise nothing changes and the settings are reported as waiting.
   */
  lemma WritesTuneOrWait(s: State, c: Config, i: Input)
    requires Inv(s) && !c.local && s.e.engaged && !s.e.requested && Undisturbed(i) && NoneTakesOff(i.messages)
    requires Spin(s, c, i).e.engaged
    requires Dispatched(s, c, i.now, i.messages).settings.writes != s.settings.checkedWrites
    ensures var (n, live) := (Spin(s, c, i), LiveAfter(s.settings.live, false, i.messages));
            && n.settings.live == live
            && if LiveTuning.SameUntunable(s.settings.applied, live)
               then n.settings.applied == n.settings.inForce == live
               else n.settings.applied == s.settings.applied == n.settings.inForce && n.settings.waiting
  {
    DispatchWhileEngaged(s, c, i.now, i.messages);
    DispatchKeepsApplied(s, c, i.now, i.messages);
    BusAsking(s, c, i);
    var f := FirstHalf(s, c, i);
    assert f.settings == Dispatched(s, c, i.now, i.messages).settings;
    FirstHalfKeepsInv(s, c, i);
    MiddleKeepsInv(f, c, i);
    MiddleKeepsWrites(f, c, i);
    LastFacts(Middle(f, c, i), c, i);
    LastTunes(Middle(f, c, i), c, i);
    SpinKeepsLive(s, c, i);
  }

  lemma MiddleKeepsWrites(s: State, c: Config, i: Input)
    ensures var n := Middle(s, c, i).settings;
            n == s.settings.(pending := n.pending)
  {
    var a := AfterStartup(Disturbed(s, i.gaps.2), i.aid);
    assert a.settings == s.settings.(pending := a.settings.pending);
    EngagementFacts(Disturbed(a, i.gaps.3), c, i.now, i.speed);
  }

  lemma {:induction false} DispatchKeepsApplied(s: State, c: Config, now: int, messages: seq<Message>)
    ensures var n := Dispatched(s, c, now, messages).settings;
            n.applied == s.settings.applied && n.checkedWrites == s.settings.checkedWrites
    decreases |messages|
  {
    if |messages| != 0 {
      DispatchKeepsApplied(AfterMessage(s, c, now, messages[0]), c, now, messages[1..]);
    }
  }

  // ----- The startup aid ----------------------------------------------------------------------------------------

  /** The messages that end a startup run. */
  predicate EndsAid(m: Message) { m.AbortAid? || m.Restart? || m.EmergencyStop? }

  predicate NoneEndsAid(messages: seq<Message>) { forall k :: 0 <= k < |messages| ==> !EndsAid(messages[k]) }

  /** A start that counts: the profile releases it, no emergency stop came before, and nothing ends it again. */
  predicate StartsAt(emergency: bool, messages: seq<Message>, k: nat)
    requires k < |messages|
  {
    && messages[k].StartAid? && messages[k].released
    && !emergency && EmergencyStop !in messages[..k] && NoneEndsAid(messages[k + 1..])
  }

  predicate AidUnderWay(active: bool, emergency: bool, messages: seq<Message>) {
    (active && NoneEndsAid(messages)) || exists k :: 0 <= k < |messages| && StartsAt(emergency, messages, k)
  }

  lemma AidSplits(active: bool, emergency: bool, messages: seq<Message>)
    requires |messages| > 0
    ensures var (m, rest) := (messages[0], messages[1..]);
            AidUnderWay(active, emergency, messages)
            <==> AidUnderWay(!EndsAid(m) && (active || (m.StartAid? && m.released && !emergency)),
                             emergency || m.EmergencyStop?, rest)
  {
    var (m, rest) := (messages[0], messages[1..]);
    var stopped := emergency || m.EmergencyStop?;
    assert messages == [m] + rest;
    assert NoneEndsAid(messages) <==> !EndsAid(m) && NoneEndsAid(rest);
    forall k | 0 <= k < |rest|
      ensures StartsAt(stopped, rest, k) <==> StartsAt(emergency, messages, k + 1)
    {
      assert messages[..k + 1] == [m] + rest[..k] && messages[k + 2..] == rest[k + 1..];
    }
    assert StartsAt(emergency, messages, 0) <==> m.StartAid? && m.released && !emergency && NoneEndsAid(rest);
    if k :| 0 <= k < |rest| && StartsAt(stopped, rest, k) {
      assert StartsAt(emergency, messages, k + 1);
    }
    if k :| 0 <= k < |messages| && StartsAt(emergency, messages, k) {
      assert k > 0 ==> StartsAt(stopped, rest, k - 1);
    }
  }

  /**
   Exactly when a startup run is under way after any messages to a drive that is off; one that ended left the
   outputs off.
   */
  lemma {:induction false} AidUnderWayIff(s: State, c: Config, now: int, messages: seq<Message>)
    requires Inv(s) && !s.e.engaged
    ensures var n := Dispatched(s, c, now, messages);
            && (n.p.startup <==> AidUnderWay(s.p.startup, s.e.emergency, messages))
            && (!n.p.startup ==> n.p.stage.Off?) && !n.e.engaged
    decreases |messages|
  {
    if |messages| != 0 {
      var n := AfterMessage(s, c, now, messages[0]);
      MessageKeepsInv(s, c, now, messages[0]);
      AidSplits(s.p.startup, s.e.emergency, messages);
      AidMessage(s, c, now, messages[0]);
      AidUnderWayIff(n, c, now, messages[1..]);
    }
  }

  lemma AidMessage(s: State, c: Config, now: int, m: Message)
    requires Inv(s) && !s.e.engaged
    ensures var n := AfterMessage(s, c, now, m);
            && n.p.startup == (!EndsAid(m) && (s.p.startup || (m.StartAid? && m.released && !s.e.emergency)))
            && n.e.emergency == (s.e.emergency || m.EmergencyStop?) && !n.e.engaged
            && (n.p.startup && !s.p.startup ==> n.p.stage == m.stage && !n.p.tripped)
  {
  }

  /** A Spin() of a startup run that nothing interrupts. */
  lemma AidSpin(s: State, c: Config, i: Input)
    requires Inv(s) && s.p.startup && !s.e.requested && !c.local && i.messages == [] && Undisturbed(i)
    ensures var n := Spin(s, c, i);
            && Inv(n) && !n.e.engaged && !n.e.requested && n.p.startupSeen && n.p.tripped == s.p.tripped
            && n.p.startup == i.aid.Continues?
            && n.p.stage == (match i.aid case Continues(stage) => stage case Ends(fault) => Off(fault))
  {
    SpinKeepsInv(s, c, i);
    assert Dispatched(s, c, i.now, i.messages) == s;
    BusAsking(s, c, i);
    var f := FirstHalf(s, c, i);
    assert f == AfterBus(s, i.busLost);
    QuietMiddle(f, c, i);
    var a := AfterStartup(f, i.aid);
    IdleEngagement(a, c, i.now, i.speed);
    LastPower(Middle(f, c, i), c, i);
  }

  lemma IdleEngagement(s: State, c: Config, now: int, speed: real)
    requires !s.e.engaged
    ensures var n := AfterEngagement(s, c, now, speed);
            n.e == s.e && n.p == s.p && n.d == s.d && n.settings == s.settings
  {
  }

  lemma LastPower(s: State, c: Config, i: Input)
    ensures var n := Last(s, c, i);
            && n.e == s.e && n.p.stage == s.p.stage && n.p.tripped == s.p.tripped
            && n.p.startup == s.p.startup && n.p.startupSeen == s.p.startupSeen
            && (!s.e.engaged && s.settings.pending && !s.p.stage.Enabled? ==>
                  && n.p.restarts == s.p.restarts + [Restarting(s.p.stage, i.accepted)]
                  && n.p.running == i.accepted)
  {
  }

  /** What a startup run wrote is taken by the Spin() after its end, in one restart under outputs that are off. */
  lemma AidResultIsTaken(s: State, c: Config, i: Input)
    requires Inv(s) && !s.e.engaged && !s.e.requested && !s.p.startup && s.p.startupSeen
    requires !c.local && i.messages == [] && Undisturbed(i)
    ensures var n := Spin(s, c, i);
            && !n.p.startupSeen && n.p.stage == s.p.stage
            && n.p.restarts == s.p.restarts + [Restarting(s.p.stage, i.accepted)] && n.p.running == i.accepted
            && n.settings.applied == n.settings.live == s.settings.live
  {
    assert Dispatched(s, c, i.now, i.messages) == s;
    BusAsking(s, c, i);
    var f := FirstHalf(s, c, i);
    assert f == AfterBus(s, i.busLost);
    QuietMiddle(f, c, i);
    StartupOver(f, i.aid);
    IdleEngagement(AfterStartup(f, i.aid), c, i.now, i.speed);
    LastPower(Middle(f, c, i), c, i);
    OffRunsLive(s, c, i);
  }
}
