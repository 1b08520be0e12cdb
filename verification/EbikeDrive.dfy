/**
 The drive with an e-bike as its local control: what keeps it off after a fault until the pedals
 stood still, exactly when that holds, and what an inhibit from the bus does.
 */
module EbikeDrive {
  import opened Units
  import EbikeControl
  import opened DriveNode
  import opened DriveReadiness

  // ----- What the e-bike keeps in every run ------------------------------------------------------

  /** A result that asks for the drive comes from a wanted drive; an inhibit since then has latched. */
  predicate ResultInv(k: EbikeControl.State) {
    k.output.engage ==> k.started && (k.e.wanting || k.e.latched)
  }

  lemma UpdateKeepsResult(k: EbikeControl.State, p: EbikeControl.Parameters, now: int, i: EbikeControl.Sensed,
                          v: EbikeControl.Vehicle)
    requires ResultInv(k)
    ensures ResultInv(EbikeControl.AfterUpdate(k, p, now, i, v))
  {
  }

  predicate Rearming(messages: seq<Message>) { exists k :: 0 <= k < |messages| && Rearms(messages[k]) }

  /** The dispatch does to the e-bike what its readiness messages say, and requests nothing. */
  lemma {:induction false} DispatchedEbike(s: State, c: Config, now: int, messages: seq<Message>)
    requires c.local
    ensures var n := Dispatched(s, c, now, messages);
            && n.ebike.parameters == s.ebike.parameters && n.e.requested == s.e.requested
            && (n.e.engaged ==> s.e.engaged)
            && (if Rearming(messages) then
                  n.ebike.control == EbikeControl.AfterInhibit(s.ebike.control) && !n.e.rearm && !n.e.engaged
                else n.ebike.control == s.ebike.control && n.e.rearm == s.e.rearm)
    decreases |messages|
  {
    if |messages| != 0 {
      var n := AfterMessage(s, c, now, messages[0]);
      assert Rearming(messages) <==> Rearms(messages[0]) || Rearming(messages[1..]) by {
        RearmingSplits(messages);
      }
      OneMessage(s, c, now, messages[0]);
      DispatchedEbike(n, c, now, messages[1..]);
    }
  }

  lemma OneMessage(s: State, c: Config, now: int, m: Message)
    requires c.local
    ensures var n := AfterMessage(s, c, now, m);
            && n.ebike.parameters == s.ebike.parameters && n.e.requested == s.e.requested
            && (n.e.engaged ==> s.e.engaged)
            && (if Rearms(m) then
                  n.ebike.control == EbikeControl.AfterInhibit(s.ebike.control) && !n.e.rearm && !n.e.engaged
                else n.ebike.control == s.ebike.control && n.e.rearm == s.e.rearm)
  {
  }

  lemma RearmingSplits(messages: seq<Message>)
    requires |messages| > 0
    ensures Rearming(messages) <==> Rearms(messages[0]) || Rearming(messages[1..])
  {
    var rest := messages[1..];
    if k :| 0 <= k < |messages| && Rearms(messages[k]) {
      assert k > 0 ==> Rearms(rest[k - 1]);
    }
    if k :| 0 <= k < |rest| && Rearms(rest[k]) {
      assert Rearms(messages[k + 1]);
    }
  }

  lemma HeardEbike(s: State, c: Config, i: Input)
    requires c.local
    ensures var n := Heard(s, c, i);
            && n.ebike.parameters == s.ebike.parameters && n.e.requested == s.e.requested
            && (n.e.engaged ==> s.e.engaged)
            && (if Rearming(i.messages) then
                  n.ebike.control == EbikeControl.AfterInhibit(s.ebike.control) && !n.e.rearm && !n.e.engaged
                else n.ebike.control == s.ebike.control && n.e.rearm == s.e.rearm)
  {
    DispatchedEbike(s, c, i.now, i.messages);
    var d := Dispatched(s, c, i.now, i.messages);
    var n := Heard(s, c, i);
    assert n.e == d.e && n.ebike == d.ebike;
  }

  /** After its update a local control that does not ask for the drive has taken it off. */
  lemma LocalControlAsks(s: State, c: Config, now: int, i: EbikeControl.Sensed)
    requires c.local && !s.e.requested && ResultInv(s.ebike.control)
    ensures var n := AfterLocalControl(s, c, now, i);
            && ResultInv(n.ebike.control) && n.ebike.control.started
            && n.ebike.parameters == s.ebike.parameters
            && (n.e.engaged || n.e.requested ==> n.ebike.control.output.engage)
  {
    UpdateKeepsResult(s.ebike.control, s.ebike.parameters, now, i, EbikeControl.Vehicle(s.e.engaged, s.e.rearm));
  }

  predicate Configured(k: EbikeControl.State) { !k.output.engage && !k.e.latched && !k.e.wanting }

  /** What an engage request does to the e-bike: nothing, or new parameters with the restart. */
  lemma RequestEbike(s: State, c: Config, i: Input)
    requires c.local
    ensures var (r, n) := (Asking(s, c, i), FirstHalf(s, c, i));
            && n.ebike.control.started == r.ebike.control.started
            && (!RestartsAtEngage(s, c, i) ==> n.ebike == r.ebike)
            && (RestartsAtEngage(s, c, i) ==> Configured(n.ebike.control))
            && (n.e.engaged ==> r.e.engaged || r.e.requested)
  {
  }

  lemma MiddleEbike(s: State, c: Config, i: Input)
    ensures Middle(s, c, i).ebike == s.ebike
  {
    var d := Disturbed(AfterStartup(Disturbed(s, i.gaps.2), i.aid), i.gaps.3);
    assert d.ebike == s.ebike;
    EngagementEbike(d, c, i.now, i.speed);
  }

  lemma EngagementEbike(s: State, c: Config, now: int, speed: real)
    ensures AfterEngagement(s, c, now, speed).ebike == s.ebike
  {
  }

  /** At the end of a Spin() a disengaged drive gives the e-bike new parameters exactly with a restart. */
  lemma LastEbike(s: State, c: Config, i: Input)
    requires c.local
    ensures var n := Last(s, c, i);
            && n.ebike.control.started == s.ebike.control.started
            && (if !s.e.engaged && SettingsWait(s) && !s.p.stage.Enabled? then Configured(n.ebike.control)
                else n.ebike == s.ebike)
  {
  }

  lemma AskingEbike(s: State, c: Config, i: Input)
    requires c.local && !s.e.requested && ResultInv(s.ebike.control)
    ensures var r := Asking(s, c, i);
            && ResultInv(r.ebike.control) && r.ebike.control.started
            && (r.e.engaged || r.e.requested ==> r.ebike.control.output.engage)
  {
    HeardEbike(s, c, i);
    LocalControlAsks(Heard(s, c, i), c, i.now, i.sensed);
    var l := AfterLocalControl(Heard(s, c, i), c, i.now, i.sensed);
    assert Asking(s, c, i).e == l.e && Asking(s, c, i).ebike == l.ebike;
  }

  /** An engaged drive was asked for by the result of its e-bike, unless a restart at the engage has cleared that. */
  lemma EngagedWasAsked(s: State, c: Config, i: Input)
    requires c.local && !s.e.requested && ResultInv(s.ebike.control)
    ensures var f := FirstHalf(s, c, i);
            && ResultInv(f.ebike.control) && f.ebike.control.started
            && (f.e.engaged ==> (f.ebike.control.output.engage <==> !RestartsAtEngage(s, c, i)))
            && (RestartsAtEngage(s, c, i) ==> Configured(f.ebike.control))
  {
    AskingEbike(s, c, i);
    RequestEbike(s, c, i);
  }

  lemma SpinKeepsResult(s: State, c: Config, i: Input)
    requires c.local && !s.e.requested && ResultInv(s.ebike.control)
    ensures ResultInv(Spin(s, c, i).ebike.control) && Spin(s, c, i).ebike.control.started
  {
    EngagedWasAsked(s, c, i);
    MiddleEbike(FirstHalf(s, c, i), c, i);
    LastEbike(Middle(FirstHalf(s, c, i), c, i), c, i);
  }

  /** Over every run from the start. */
  lemma {:induction false} RunKeepsResult(s: State, c: Config, inputs: seq<Input>)
    requires c.local && Inv(s) && !s.e.requested && ResultInv(s.ebike.control)
    ensures var n := Run(s, c, inputs);
            Inv(n) && !n.e.requested && ResultInv(n.ebike.control)
    decreases |inputs|
  {
    if |inputs| != 0 {
      SpinKeepsResult(s, c, inputs[0]);
      SpinKeepsInv(s, c, inputs[0]);
      RunKeepsResult(Spin(s, c, inputs[0]), c, inputs[1..]);
    }
  }

  // ----- Held off ---------------------------------------------------------------------------------

  /** An update would find no turn of the crank within the re-arm time. */
  predicate Still(k: EbikeControl.State, p: EbikeControl.Parameters, now: int, i: EbikeControl.Sensed) {
    Elapsed(now, if i.pedaling || !k.started then now else k.e.stillSince) >= p.rearmStill
  }

  /** Off, and either the drive waits for the e-bike to notice the fault, or the e-bike is latched. */
  predicate HeldOff(s: State) {
    var k := s.ebike.control;
    !s.e.engaged && !s.e.requested && (if k.output.engage then s.e.rearm else k.e.latched)
  }

  /** A readiness other than ENGAGED comes in a Spin() whose e-bike update, not computed, still asks for the drive. */
  predicate StaleInhibit(s: State, i: Input) {
    var k := s.ebike.control;
    Rearming(i.messages) && !EbikeControl.Computed(k, i.now) && k.output.engage
  }

  predicate FindsStill(s: State, i: Input) {
    EbikeControl.Computed(s.ebike.control, i.now) && Still(s.ebike.control, s.ebike.parameters, i.now, i.sensed)
  }

  /** What a Spin() must not meet for a drive to stay held off. */
  predicate Guarded(s: State, c: Config, i: Input) {
    !FindsStill(s, i) && !StaleInhibit(s, i) && !RestartsAtEnd(s, c, i)
  }

  lemma LocalControlHolds(s: State, c: Config, now: int, i: EbikeControl.Sensed)
    requires c.local && !s.e.engaged && !s.e.requested && ResultInv(s.ebike.control)
    requires var k := s.ebike.control;
             && (k.e.latched || (k.output.engage && s.e.rearm))
             && (EbikeControl.Computed(k, now) ==> !Still(k, s.ebike.parameters, now, i))
             && (!EbikeControl.Computed(k, now) && k.output.engage ==> s.e.rearm)
    ensures HeldOff(AfterLocalControl(s, c, now, i))
  {
    var u := EbikeUpdated(s, now, i).control;
    if EbikeControl.Computed(s.ebike.control, now) {
      assert u.e.latched && !u.output.engage;
    }
  }

  lemma AskingHolds(s: State, c: Config, i: Input)
    requires c.local && HeldOff(s) && ResultInv(s.ebike.control) && !FindsStill(s, i) && !StaleInhibit(s, i)
    ensures HeldOff(Asking(s, c, i))
  {
    HeardEbike(s, c, i);
    LocalControlHolds(Heard(s, c, i), c, i.now, i.sensed);
    var l := AfterLocalControl(Heard(s, c, i), c, i.now, i.sensed);
    assert Asking(s, c, i).e == l.e && Asking(s, c, i).ebike == l.ebike;
  }

  lemma MiddleHolds(s: State, c: Config, i: Input)
    requires !s.e.engaged
    ensures Middle(s, c, i).e == s.e && Middle(s, c, i).ebike == s.ebike
  {
    var d := Disturbed(AfterStartup(Disturbed(s, i.gaps.2), i.aid), i.gaps.3);
    assert d.e == s.e;
    OffEngagement(d, c, i.now, i.speed);
    MiddleEbike(s, c, i);
  }

  lemma OffEngagement(s: State, c: Config, now: int, speed: real)
    requires !s.e.engaged
    ensures AfterEngagement(s, c, now, speed).e == s.e
  {
  }

  /** A drive that is held off stays so over a Spin() that is guarded; a restart at its end always loses the hold. */
  lemma SpinHolds(s: State, c: Config, i: Input)
    requires c.local && HeldOff(s) && ResultInv(s.ebike.control) && !FindsStill(s, i) && !StaleInhibit(s, i)
    ensures !Spin(s, c, i).e.engaged && (HeldOff(Spin(s, c, i)) <==> !RestartsAtEnd(s, c, i))
  {
    AskingHolds(s, c, i);
    var f := FirstHalf(s, c, i);
    assert f == Asking(s, c, i);
    MiddleHolds(f, c, i);
    LastEbike(Middle(f, c, i), c, i);
    LastFacts(Middle(f, c, i), c, i);
  }

  predicate GuardedRun(s: State, c: Config, inputs: seq<Input>)
    decreases |inputs|
  {
    |inputs| == 0 || (Guarded(s, c, inputs[0]) && GuardedRun(Spin(s, c, inputs[0]), c, inputs[1..]))
  }

  lemma {:induction false} HeldOffStaysOff(s: State, c: Config, inputs: seq<Input>)
    requires c.local && HeldOff(s) && ResultInv(s.ebike.control) && GuardedRun(s, c, inputs)
    ensures !Run(s, c, inputs).e.engaged
    decreases |inputs|
  {
    if |inputs| != 0 {
      SpinHolds(s, c, inputs[0]);
      SpinKeepsResult(s, c, inputs[0]);
      HeldOffStaysOff(Spin(s, c, inputs[0]), c, inputs[1..]);
    }
  }

  // ----- Exactly when it stays off ----------------------------------------------------------------

  const UNDISTURBED := (Quiet, Quiet, Quiet, Quiet)

  /** A Spin() in which nothing arrives and nothing fails, and the rider turns the crank at assist level 1. */
  function Riding(now: int): (r: Input) {
    Input(now, [], false, EbikeControl.Sensed([1], true, 0.0), true, true, Continues(Off(false)), 0.0, UNDISTURBED)
  }

  /** Nothing refuses an engage: no emergency stop, no settings to apply, no startup aid. */
  predicate Ready(s: State) {
    !s.e.emergency && !SettingsWait(s) && !s.p.startup && !s.p.startupSeen
  }

  lemma RidingAsks(s: State, c: Config, now: int)
    requires c.local && !s.e.engaged && !s.e.requested
    ensures var i := Riding(now);
            Asking(s, c, i) == AfterLocalControl(s, c, now, i.sensed)
  {
    assert Heard(s, c, Riding(now)) == s;
  }

  lemma FreshStays(s: State, c: Config, now: int, speed: real)
    requires s.e.engaged && s.p.stage.Enabled? && !s.p.tripped && s.e.lastReadiness == now
    ensures AfterEngagement(s, c, now, speed).e.engaged
  {
  }

  /** A request in a drive that is ready engages it for the rest of the Spin(). */
  lemma RequestEngages(r: State, c: Config, i: Input)
    requires !r.e.engaged && Ready(r) && i.allowed && i.gaps == UNDISTURBED
    requires r.e.requested ==> r.e.lastReadiness == i.now
    ensures var n := Last(Middle(AfterRequest(r, c, i.accepted, i.allowed), c, i), c, i);
            n.e.engaged <==> r.e.requested
  {
    var f := AfterRequest(r, c, i.accepted, i.allowed);
    MiddleFacts(f, c, i);
    LastFacts(Middle(f, c, i), c, i);
    if r.e.requested {
      assert f.e.engaged && f.p.stage.Enabled? && !f.p.tripped && f.e.lastReadiness == i.now;
      assert AfterStartup(f, i.aid) == f;
      FreshStays(f, c, i.now, i.speed);
    }
  }

  /** Riding engages a ready drive exactly if the e-bike update asks for it and no re-arm is required. */
  lemma RidingEngages(s: State, c: Config, now: int)
    requires c.local && !s.e.engaged && !s.e.requested && Ready(s)
    ensures Spin(s, c, Riding(now)).e.engaged
            <==> EbikeUpdated(s, now, Riding(now).sensed).engage && !s.e.rearm
  {
    var i := Riding(now);
    RidingAsks(s, c, now);
    RequestEngages(Asking(s, c, i), c, i);
  }

  /** Nothing is restarted at the end of it either. */
  lemma RidingRestartsNothing(s: State, c: Config, now: int)
    requires c.local && !s.e.engaged && !s.e.requested && Ready(s)
    ensures !RestartsAtEnd(s, c, Riding(now)) && !RestartsAtEngage(s, c, Riding(now))
  {
    var i := Riding(now);
    RidingAsks(s, c, now);
    var f := FirstHalf(s, c, i);
    RidingWaitsNot(s, c, now);
    assert Middle(f, c, i).settings == f.settings by {
      assert AfterStartup(f, i.aid).settings == f.settings;
      EngagementFacts(AfterStartup(f, i.aid), c, i.now, i.speed);
    }
  }

  lemma RidingWaitsNot(s: State, c: Config, now: int)
    requires c.local && !s.e.engaged && !s.e.requested && Ready(s)
    ensures var f := FirstHalf(s, c, Riding(now));
            !SettingsWait(f) && !f.p.startup && !f.p.startupSeen
  {
    RidingAsks(s, c, now);
  }

  /** A Spin() with an update that is not computed drops the re-arm of a drive that the last result does not ask for. */
  lemma IdleRearms(s: State, c: Config, now: int)
    requires c.local && !s.e.engaged && !s.e.requested && Ready(s)
    requires !EbikeControl.Computed(s.ebike.control, now) && !s.ebike.control.output.engage
    ensures var n := Spin(s, c, Riding(now));
            !n.e.engaged && !n.e.requested && !n.e.rearm && Ready(n) && n.ebike.control == s.ebike.control
            && n.ebike.parameters == s.ebike.parameters
  {
    var i := Riding(now);
    RidingAsks(s, c, now);
    var f := FirstHalf(s, c, i);
    assert f == Asking(s, c, i) && Ready(f) && !f.e.engaged;
    MiddleHolds(f, c, i);
    var m := Middle(f, c, i);
    assert m.p == f.p && m.settings == f.settings by {
      assert AfterStartup(f, i.aid) == f;
      OffKeepsPower(f, c, i.now, i.speed);
    }
  }

  lemma OffKeepsPower(s: State, c: Config, now: int, speed: real)
    requires !s.e.engaged
    ensures AfterEngagement(s, c, now, speed).p == s.p && AfterEngagement(s, c, now, speed).settings == s.settings
  {
  }

  /** The inputs that engage a drive which is not held off: one Spin() at once, and one a step later. */
  function Reengaging(s: State): (r: seq<Input>) {
    var at := s.ebike.control.lastUpdate;
    if s.ebike.control.output.engage then [Riding(at)] else [Riding(at), Riding(at + EbikeControl.STEP_MICROS)]
  }

  predicate Adjusted(p: EbikeControl.Parameters) { p.rearmStill > 0 && p.displayTimeout > 0 }

  /** A computed update with a turning crank asks for the drive unless it is latched or sees a fault. */
  lemma RiderIsHeard(s: State, now: int)
    requires EbikeControl.Computed(s.ebike.control, now) && Adjusted(s.ebike.parameters)
    requires !s.e.rearm && !s.ebike.control.e.latched
    ensures EbikeUpdated(s, now, Riding(now).sensed).engage
  {
  }

  /** A drive that is not held off is engaged again, with the crank turning all the time. */
  lemma NotHeldReengages(s: State, c: Config)
    requires c.local && !s.e.engaged && !s.e.requested && Ready(s) && !HeldOff(s)
    requires s.ebike.control.started && Adjusted(s.ebike.parameters)
    ensures GuardedRun(s, c, Reengaging(s)) && Run(s, c, Reengaging(s)).e.engaged
  {
    var at := s.ebike.control.lastUpdate;
    assert !EbikeControl.Computed(s.ebike.control, at);
    RidingRestartsNothing(s, c, at);
    var n := Spin(s, c, Riding(at));
    if s.ebike.control.output.engage {
      RidingEngages(s, c, at);
      assert Reengaging(s)[1..] == [];
    } else {
      IdleRearms(s, c, at);
      var later := at + EbikeControl.STEP_MICROS;
      RiderIsHeard(n, later);
      RidingEngages(n, c, later);
      RidingRestartsNothing(n, c, later);
      assert Reengaging(s)[1..] == [Riding(later)] && Reengaging(s)[1..][1..] == [];
      GuardedPair(s, c, Riding(at), Riding(later));
    }
  }

  lemma GuardedPair(s: State, c: Config, i: Input, j: Input)
    requires Guarded(s, c, i) && Guarded(Spin(s, c, i), c, j)
    ensures GuardedRun(s, c, [i, j]) && Run(s, c, [i, j]) == Spin(Spin(s, c, i), c, j)
  {
    var n := Spin(s, c, i);
    assert [i, j][1..] == [j] && [j][1..] == [];
    assert Run(n, c, [j]) == Spin(n, c, j);
    assert GuardedRun(n, c, [j]);
  }

  /** No guarded run engages the drive. */
  ghost predicate StaysOff(s: State, c: Config) {
    forall inputs :: GuardedRun(s, c, inputs) ==> !Run(s, c, inputs).e.engaged
  }

  lemma StaysOffIsOff(s: State, c: Config)
    requires StaysOff(s, c)
    ensures !s.e.engaged
  {
    var none: seq<Input> := [];
    assert GuardedRun(s, c, none) && Run(s, c, none) == s;
  }

  /** Both ways: being held off is the same as staying off along every guarded run. */
  lemma HeldOffExactly(s: State, c: Config)
    requires c.local && !s.e.engaged && !s.e.requested && Ready(s) && ResultInv(s.ebike.control)
    requires s.ebike.control.started && Adjusted(s.ebike.parameters)
    ensures HeldOff(s) <==> StaysOff(s, c)
  {
    if HeldOff(s) {
      forall inputs | GuardedRun(s, c, inputs)
        ensures !Run(s, c, inputs).e.engaged
      {
        HeldOffStaysOff(s, c, inputs);
      }
    } else {
      NotHeldReengages(s, c);
    }
  }

  // ----- After a trip or fault ------------------------------------------------------------------------

  lemma LostStageOff(s: State, c: Config, i: Input)
    requires FindsStageLost(s, i)
    ensures var n := AfterEngagement(s, c, i.now, i.speed);
            && !n.e.engaged && !n.p.stage.Enabled? && n.e.emergency == s.e.emergency
            && n.p.startup == s.p.startup && n.p.startupSeen == s.p.startupSeen
  {
  }

  lemma LostInTheMiddle(f: State, c: Config, i: Input)
    requires FindsStageLost(Disturbed(AfterStartup(Disturbed(f, i.gaps.2), i.aid), i.gaps.3), i)
    ensures var m := Middle(f, c, i);
            && f.e.engaged && !m.e.engaged && !m.p.stage.Enabled? && m.e.emergency == f.e.emergency
            && (!f.p.startup ==> !m.p.startup && !m.p.startupSeen)
  {
    var b := Disturbed(AfterStartup(Disturbed(f, i.gaps.2), i.aid), i.gaps.3);
    assert b.e == f.e;
    LostStageOff(b, c, i);
  }

  lemma TripDisengaged(s: State, c: Config, i: Input)
    requires FindsStageLost(BeforeEngagement(s, c, i), i)
    ensures FirstHalf(s, c, i).e.engaged && !Middle(FirstHalf(s, c, i), c, i).e.engaged
  {
    LostInTheMiddle(FirstHalf(s, c, i), c, i);
  }

  /** A Spin() that disengages and leaves the drive waiting for a re-arm. */
  lemma WaitsHoldsIff(s: State, c: Config, i: Input)
    requires c.local && !s.e.requested && ResultInv(s.ebike.control) && Waits(Spin(s, c, i))
    requires FirstHalf(s, c, i).e.engaged && !Middle(FirstHalf(s, c, i), c, i).e.engaged
    ensures HeldOff(Spin(s, c, i)) <==> !RestartsAtEngage(s, c, i) && !RestartsAtEnd(s, c, i)
    ensures RestartsAtEnd(s, c, i) ==> Configured(Spin(s, c, i).ebike.control)
  {
    EngagedWasAsked(s, c, i);
    MiddleEbike(FirstHalf(s, c, i), c, i);
    LastEbike(Middle(FirstHalf(s, c, i), c, i), c, i);
  }

  /** What a Spin() that finds the stage lost leaves: held off exactly if it restarted nothing. */
  lemma TripHoldsIff(s: State, c: Config, i: Input)
    requires c.local && Inv(s) && !s.e.requested && ResultInv(s.ebike.control)
    requires FindsStageLost(BeforeEngagement(s, c, i), i)
    ensures var n := Spin(s, c, i);
            && Waits(n) && ResultInv(n.ebike.control) && n.ebike.control.started
            && (HeldOff(n) <==> !RestartsAtEngage(s, c, i) && !RestartsAtEnd(s, c, i))
            && (RestartsAtEnd(s, c, i) ==> Configured(n.ebike.control))
  {
    TripWaits(s, c, i);
    TripDisengaged(s, c, i);
    WaitsHoldsIff(s, c, i);
    SpinKeepsResult(s, c, i);
  }

  /** The state behind such a Spin() is ready for an engage. */
  lemma TripLeavesReady(s: State, c: Config, i: Input)
    requires Inv(s) && FindsStageLost(BeforeEngagement(s, c, i), i)
    ensures Ready(Spin(s, c, i))
  {
    FirstHalfKeepsInv(s, c, i);
    var f := FirstHalf(s, c, i);
    LostInTheMiddle(f, c, i);
    LastLeavesNothing(Middle(f, c, i), c, i);
  }

  lemma LastLeavesNothing(s: State, c: Config, i: Input)
    requires !s.e.engaged && !s.p.stage.Enabled?
    ensures var n := Last(s, c, i);
            && !SettingsWait(n) && n.e == s.e && n.p.startup == s.p.startup && n.p.startupSeen == s.p.startupSeen
  {
  }

  /**
   A fault cannot re-engage the drive in a loop. After a Spin() that finds the stage lost (and applies
   no settings) the drive stays off along every run in which no computed update finds the pedals still,
   no settings are applied, and no inhibit meets a stale result. All messages may arrive in it.
   */
  lemma FaultStaysOff(s: State, c: Config, i: Input, after: seq<Input>)
    requires c.local && Inv(s) && !s.e.requested && ResultInv(s.ebike.control)
    requires FindsStageLost(BeforeEngagement(s, c, i), i)
    requires !RestartsAtEngage(s, c, i) && !RestartsAtEnd(s, c, i) && GuardedRun(Spin(s, c, i), c, after)
    ensures !Run(Spin(s, c, i), c, after).e.engaged
  {
    TripHoldsIff(s, c, i);
    HeldOffStaysOff(Spin(s, c, i), c, after);
  }

  /** The same from the start of operation, whatever happened before the fault. */
  lemma FaultStaysOffInEveryRun(s: State, c: Config, before: seq<Input>, i: Input, after: seq<Input>)
    requires c.local && Initial(s) && EbikeControl.InitialState(s.ebike.control)
    requires var b := Run(s, c, before);
             && FindsStageLost(BeforeEngagement(b, c, i), i)
             && !RestartsAtEngage(b, c, i) && !RestartsAtEnd(b, c, i) && GuardedRun(Spin(b, c, i), c, after)
    ensures !Run(Spin(Run(s, c, before), c, i), c, after).e.engaged
  {
    InitialInv(s);
    RunKeepsResult(s, c, before);
    FaultStaysOff(Run(s, c, before), c, i, after);
  }

  /** Exactly then: when that Spin() applies settings, some guarded run engages the drive again. */
  lemma FaultStaysOffIffNothingApplied(s: State, c: Config, i: Input)
    requires c.local && Inv(s) && !s.e.requested && ResultInv(s.ebike.control)
    requires FindsStageLost(BeforeEngagement(s, c, i), i) && Adjusted(Spin(s, c, i).ebike.parameters)
    ensures !RestartsAtEngage(s, c, i) && !RestartsAtEnd(s, c, i)
            <==> StaysOff(Spin(s, c, i), c)
  {
    TripHoldsIff(s, c, i);
    TripLeavesReady(s, c, i);
    HeldOffExactly(Spin(s, c, i), c);
  }

  /** One Spin() within the step of the e-bike and one after it, the crank turning in both. */
  function RideOn(now: int): (r: seq<Input>) { [Riding(now), Riding(now + EbikeControl.STEP_MICROS)] }

  lemma ConfiguredRidesOn(s: State)
    requires Configured(s.ebike.control)
    ensures !HeldOff(s) && Reengaging(s) == RideOn(s.ebike.control.lastUpdate)
  {
  }

  /** Right after new parameters the rider engages the drive again, re-arm or not. */
  lemma ConfiguredReengages(s: State, c: Config)
    requires c.local && !s.e.engaged && !s.e.requested && Ready(s) && Configured(s.ebike.control)
    requires s.ebike.control.started && Adjusted(s.ebike.parameters)
    ensures GuardedRun(s, c, RideOn(s.ebike.control.lastUpdate))
    ensures Run(s, c, RideOn(s.ebike.control.lastUpdate)).e.engaged
  {
    ConfiguredRidesOn(s);
    NotHeldReengages(s, c);
  }

  /**
   The failing run: settings wait when the stage is lost, so the same Spin() restarts the controller and
   clears the e-bike. One Spin() within the step and one after it, the crank turning in both, engage again.
   */
  lemma WaitingSettingsReengage(s: State, c: Config, i: Input)
    requires c.local && Inv(s) && !s.e.requested && ResultInv(s.ebike.control)
    requires FindsStageLost(BeforeEngagement(s, c, i), i) && Adjusted(Spin(s, c, i).ebike.parameters)
    requires RestartsAtEnd(s, c, i)
    ensures !Spin(s, c, i).e.engaged
    ensures GuardedRun(Spin(s, c, i), c, RideOn(Spin(s, c, i).ebike.control.lastUpdate))
    ensures Run(Spin(s, c, i), c, RideOn(Spin(s, c, i).ebike.control.lastUpdate)).e.engaged
  {
    TripHoldsIff(s, c, i);
    TripLeavesReady(s, c, i);
    ConfiguredReengages(Spin(s, c, i), c);
  }

  /** The e-bike after new parameters: the next update is held again exactly if it is computed and sees the fault. */
  lemma ComputedUpdateHoldsAgain(s: State, c: Config, i: Input)
    requires c.local && !s.e.engaged && !s.e.requested && Ready(s) && Configured(s.ebike.control)
    requires i.messages == [] && i.allowed && i.gaps == UNDISTURBED && !FindsStill(s, i)
    ensures var k := s.ebike.control;
            var d := EbikeControl.AfterDisplay(k.display, s.ebike.parameters, i.now, i.sensed.requests);
            HeldOff(Spin(s, c, i))
            <==> && EbikeControl.Computed(k, i.now) && s.e.rearm
                 && (k.e.wasEngaged || EbikeControl.Want(d, i.sensed.pedaling))
  {
    HeardEbike(s, c, i);
    assert Asking(s, c, i) == AfterLocalControl(AfterBus(s, i.busLost), c, i.now, i.sensed);
    var r := Asking(s, c, i);
    ConfiguredUpdate(AfterBus(s, i.busLost), c, i.now, i.sensed);
    RequestEngages(r, c, i);
    if !r.e.requested {
      MiddleHolds(r, c, i);
      assert AfterStartup(r, i.aid) == r;
      OffKeepsPower(r, c, i.now, i.speed);
      LastEbike(Middle(r, c, i), c, i);
      LastFacts(Middle(r, c, i), c, i);
    }
  }

  lemma ConfiguredUpdate(s: State, c: Config, now: int, i: EbikeControl.Sensed)
    requires c.local && !s.e.engaged && !s.e.requested && Ready(s) && Configured(s.ebike.control)
    requires EbikeControl.Computed(s.ebike.control, now) ==> !Still(s.ebike.control, s.ebike.parameters, now, i)
    ensures var k := s.ebike.control;
            var d := EbikeControl.AfterDisplay(k.display, s.ebike.parameters, now, i.requests);
            var n := AfterLocalControl(s, c, now, i);
            var again := EbikeControl.Computed(k, now) && s.e.rearm
                         && (k.e.wasEngaged || EbikeControl.Want(d, i.pedaling));
            && !n.e.engaged && Ready(n) && (n.e.requested ==> n.e.lastReadiness == now)
            && (!n.e.requested ==> (HeldOff(n) <==> again)) && (n.e.requested ==> !again)
  {
  }

  /** Such a quiet Spin() without a request leaves a drive that is ready. */
  lemma QuietKeepsReady(s: State, c: Config, i: Input)
    requires c.local && !s.e.engaged && !s.e.requested && Ready(s) && Configured(s.ebike.control)
    requires i.messages == [] && i.allowed && i.gaps == UNDISTURBED && !FindsStill(s, i)
    requires !Asking(s, c, i).e.requested
    ensures var n := Spin(s, c, i);
            !n.e.engaged && !n.e.requested && Ready(n) && n.ebike == Asking(s, c, i).ebike
  {
    HeardEbike(s, c, i);
    var r := Asking(s, c, i);
    assert r == AfterLocalControl(AfterBus(s, i.busLost), c, i.now, i.sensed);
    ConfiguredUpdate(AfterBus(s, i.busLost), c, i.now, i.sensed);
    assert FirstHalf(s, c, i) == r && !r.e.engaged && Ready(r);
    MiddleHolds(r, c, i);
    var m := Middle(r, c, i);
    assert m.p == r.p && m.settings == r.settings by {
      assert AfterStartup(r, i.aid) == r;
      OffKeepsPower(r, c, i.now, i.speed);
    }
    LastReady(m, c, i);
  }

  lemma LastReady(s: State, c: Config, i: Input)
    requires !s.e.engaged && Ready(s)
    ensures var n := Last(s, c, i);
            n.e == s.e && Ready(n) && n.ebike == s.ebike
  {
  }

  /**
   After new parameters, both ways: the drive stays off along every guarded run exactly if the next e-bike
   update is computed and sees the fault while the drive is wanted or was engaged.
   */
  lemma StaysOffIffComputedUpdate(s: State, c: Config, i: Input)
    requires c.local && !s.e.engaged && !s.e.requested && Ready(s) && Configured(s.ebike.control)
    requires i.messages == [] && i.allowed && i.gaps == UNDISTURBED && !FindsStill(s, i)
    requires Adjusted(s.ebike.parameters)
    ensures var (k, n) := (s.ebike.control, Spin(s, c, i));
            var d := EbikeControl.AfterDisplay(k.display, s.ebike.parameters, i.now, i.sensed.requests);
            StaysOff(n, c)
            <==> && EbikeControl.Computed(k, i.now) && s.e.rearm
                 && (k.e.wasEngaged || EbikeControl.Want(d, i.sensed.pedaling))
  {
    ComputedUpdateHoldsAgain(s, c, i);
    SpinKeepsResult(s, c, i);
    var n := Spin(s, c, i);
    if n.e.engaged {
      if StaysOff(n, c) {
        StaysOffIsOff(n, c);
      }
    } else {
      QuietRequestsNothing(s, c, i);
      QuietKeepsReady(s, c, i);
      HeldOffExactly(n, c);
    }
  }

  lemma QuietRequestsNothing(s: State, c: Config, i: Input)
    requires c.local && !s.e.engaged && !s.e.requested && Ready(s) && Configured(s.ebike.control)
    requires i.messages == [] && i.allowed && i.gaps == UNDISTURBED && !FindsStill(s, i)
    requires !Spin(s, c, i).e.engaged
    ensures !Asking(s, c, i).e.requested && Asking(s, c, i).ebike.parameters == s.ebike.parameters
  {
    HeardEbike(s, c, i);
    var r := Asking(s, c, i);
    assert r == AfterLocalControl(AfterBus(s, i.busLost), c, i.now, i.sensed);
    ConfiguredUpdate(AfterBus(s, i.busLost), c, i.now, i.sensed);
    RequestEngages(r, c, i);
  }

  /** Settings that are applied later, while the drive is held off, let the rider engage it again too. */
  lemma LaterSettingsReengage(s: State, c: Config, i: Input)
    requires c.local && Inv(s) && HeldOff(s) && ResultInv(s.ebike.control) && !FindsStill(s, i) && !StaleInhibit(s, i)
    requires RestartsAtEnd(s, c, i) && Ready(Spin(s, c, i)) && Adjusted(Spin(s, c, i).ebike.parameters)
    ensures GuardedRun(Spin(s, c, i), c, Reengaging(Spin(s, c, i)))
    ensures Run(Spin(s, c, i), c, Reengaging(Spin(s, c, i))).e.engaged
  {
    SpinHolds(s, c, i);
    SpinKeepsResult(s, c, i);
    SpinKeepsInv(s, c, i);
    NotHeldReengages(Spin(s, c, i), c);
  }

  // ----- An inhibit from the bus -----------------------------------------------------------------------

  lemma InhibitedControl(s: State, c: Config, now: int, i: EbikeControl.Sensed)
    requires c.local && !s.e.engaged && !s.e.rearm && !s.e.requested && Ready(s)
    requires s.ebike.control.e.latched && !s.ebike.control.e.wanting
    ensures var (n, k, p) := (AfterLocalControl(s, c, now, i), s.ebike.control, s.ebike.parameters);
            var d := EbikeControl.AfterDisplay(k.display, p, now, i.requests);
            && (n.e.requested <==>
                  if EbikeControl.Computed(k, now) then p.rearmStill == 0 && EbikeControl.Want(d, i.pedaling)
                  else k.output.engage)
            && (n.e.requested ==> n.e.lastReadiness == now)
            && !n.e.engaged && Ready(n)
  {
  }

  /**
   A STANDBY or SLEEP takes the drive off the e-bike, or finds it off already. The same Spin() engages it
   again exactly if the e-bike update is not computed and its last result asked for the drive, or if it is
   computed with a re-arm time of zero and the rider wants the drive.
   */
  lemma InhibitReengagesIff(s: State, c: Config, i: Input, value: Readiness)
    requires c.local && !s.e.requested && Ready(s) && i.allowed && i.gaps == UNDISTURBED
    requires !value.Engage? && i.messages == [ReadinessMessage(value)]
    ensures var (k, p) := (s.ebike.control, s.ebike.parameters);
            var d := EbikeControl.AfterDisplay(k.display, p, i.now, i.sensed.requests);
            Spin(s, c, i).e.engaged
            <==> if EbikeControl.Computed(k, i.now) then p.rearmStill == 0 && EbikeControl.Want(d, i.sensed.pedaling)
                 else k.output.engage
  {
    var d := AfterReadiness(s, c, value, i.now);
    assert i.messages[1..] == [];
    assert Dispatched(s, c, i.now, i.messages) == Dispatched(d, c, i.now, i.messages[1..]) == d;
    assert d.ebike.control == EbikeControl.AfterInhibit(s.ebike.control);
    assert !d.e.engaged && !d.e.rearm && !d.e.requested && Ready(d);
    var h := Heard(s, c, i);
    assert h.e == d.e && h.p == d.p && h.settings == d.settings && h.ebike == d.ebike;
    InhibitedControl(h, c, i.now, i.sensed);
    RequestEngages(Asking(s, c, i), c, i);
  }
}
