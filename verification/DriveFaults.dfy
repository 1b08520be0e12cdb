/** What trips, the break input and the external enable do to a drive, wherever in a Spin() they come. */
module DriveFaults {
  import opened DriveNode
  import opened DriveReadiness
  import opened DriveMessages

  /** What a disturbance leaves of the power stage: outputs off, a fault latched by a trip and the break input. */
  predicate Lost(s: State, n: State, d: Disturbance) {
    && n.p.stage.Off?
    && (d.Trip? || d.BreakInput? ==> n.p.stage.fault) && (d.EnableLost? && s.p.stage.Enabled? ==> !n.p.stage.fault)
    && (n.p.tripped <==> s.p.tripped || d.Trip?)
  }

  lemma DisturbedIsLost(s: State, d: Disturbance)
    requires !d.Quiet?
    ensures Lost(s, Disturbed(s, d), d) && Disturbed(s, d).e == s.e && Disturbed(s, d).p.startup == s.p.startup
  {
  }

  lemma LostStageDisengages(s: State, c: Config, now: int, speed: real)
    requires s.p.stage.Off?
    ensures var n := AfterEngagement(s, c, now, speed);
            !n.e.engaged && n.p == s.p
  {
  }

  /**
   A trip, a lost external enable or the break input right before the supervision: whatever came in the Spin(),
   it ends disengaged with the outputs off, and a fault stays latched.
   */
  lemma DisturbanceTakesOff(s: State, c: Config, i: Input)
    requires !i.gaps.3.Quiet?
    ensures var (n, b) := (Spin(s, c, i), AfterStartup(Disturbed(FirstHalf(s, c, i), i.gaps.2), i.aid));
            !n.e.engaged && n.d.outer.active == false && Lost(b, n, i.gaps.3)
  {
    var f := FirstHalf(s, c, i);
    var b := AfterStartup(Disturbed(f, i.gaps.2), i.aid);
    var d := Disturbed(b, i.gaps.3);
    DisturbedIsLost(b, i.gaps.3);
    LostStageDisengages(d, c, i.now, i.speed);
    assert Middle(f, c, i) == AfterEngagement(d, c, i.now, i.speed);
    LastPower(Middle(f, c, i), c, i);
    EndOfSpin(Middle(f, c, i), c, i);
  }

  /** Some message reports that the hardware or the control cycle took the outputs. */
  predicate AnyInterrupts(messages: seq<Message>) {
    exists k :: 0 <= k < |messages| && messages[k].Interrupted? && !messages[k].cause.Quiet?
  }

  lemma InterruptsSplit(messages: seq<Message>)
    requires |messages| > 0
    ensures AnyInterrupts(messages)
            <==> (messages[0].Interrupted? && !messages[0].cause.Quiet?) || AnyInterrupts(messages[1..])
  {
    var rest := messages[1..];
    if k :| 0 <= k < |rest| && rest[k].Interrupted? && !rest[k].cause.Quiet? {
      assert messages[k + 1].Interrupted?;
    }
    if k :| 0 <= k < |messages| && messages[k].Interrupted? && !messages[k].cause.Quiet? {
      assert k > 0 ==> rest[k - 1].Interrupted?;
    }
  }

  /** A dispatch that does not take an engaged drive off leaves the outputs on exactly without a disturbance. */
  lemma {:induction false} DispatchInterrupted(s: State, c: Config, now: int, messages: seq<Message>)
    requires s.e.engaged && !s.p.startup && NoneTakesOff(messages)
    ensures var n := Dispatched(s, c, now, messages);
            && (n.p.stage.Enabled? <==> s.p.stage.Enabled? && !AnyInterrupts(messages))
            && n.e.engaged && n.e.requested == s.e.requested && !n.p.startup
    decreases |messages|
  {
    if |messages| != 0 {
      SplitLists(messages);
      InterruptsSplit(messages);
      MessageInterrupts(s, c, now, messages[0]);
      DispatchInterrupted(AfterMessage(s, c, now, messages[0]), c, now, messages[1..]);
    }
  }

  lemma MessageInterrupts(s: State, c: Config, now: int, m: Message)
    requires s.e.engaged && !s.p.startup && !TakesOff(m)
    ensures var n := AfterMessage(s, c, now, m);
            && (n.p.stage.Enabled? <==> s.p.stage.Enabled? && !(m.Interrupted? && !m.cause.Quiet?))
            && n.e.engaged && n.e.requested == s.e.requested && !n.p.startup
  {
  }

  /** Engaged with the outputs off already, or off. */
  predicate LosesOutputs(s: State) { !s.e.requested && !s.p.startup && s.p.stage.Off? }

  lemma LocalControlLoses(s: State, c: Config, i: Input)
    requires LosesOutputs(s) && s.e.engaged
    ensures LosesOutputs(AfterLocalControl(s, c, i.now, i.sensed))
  {
  }

  lemma DisturbedLoses(s: State, d: Disturbance)
    requires !s.e.requested && !s.p.startup && (s.p.stage.Off? || !d.Quiet?)
    ensures LosesOutputs(Disturbed(s, d))
  {
  }

  /** Neither dispatch nor local control of such a Spin() leaves an engage request or a startup run. */
  predicate AsksNothing(s: State) { !s.e.requested && !s.p.startup }

  lemma HeardStays(s: State, c: Config, i: Input)
    requires s.e.engaged && AsksNothing(s) && NoneTakesOff(i.messages)
    ensures var h := Heard(s, c, i);
            && h.e.engaged && AsksNothing(h)
            && (AnyInterrupts(i.messages) || !i.gaps.0.Quiet? ==> h.p.stage.Off?)
  {
    DispatchInterrupted(s, c, i.now, i.messages);
    DisturbedAsks(AfterBus(Dispatched(s, c, i.now, i.messages), i.busLost), i.gaps.0);
  }

  lemma DisturbedAsks(s: State, d: Disturbance)
    ensures var n := Disturbed(s, d);
            n.e == s.e && n.p.startup == s.p.startup && (s.p.stage.Off? || !d.Quiet? ==> n.p.stage.Off?)
  {
  }

  lemma LocalControlAsks(s: State, c: Config, i: Input)
    requires s.e.engaged && AsksNothing(s)
    ensures AsksNothing(AfterLocalControl(s, c, i.now, i.sensed))
  {
  }

  lemma FirstHalfStays(s: State, c: Config, i: Input)
    requires s.e.engaged && AsksNothing(s) && NoneTakesOff(i.messages)
    ensures AsksNothing(FirstHalf(s, c, i))
  {
    HeardStays(s, c, i);
    LocalControlAsks(Heard(s, c, i), c, i);
    DisturbedAsks(AfterLocalControl(Heard(s, c, i), c, i.now, i.sensed), i.gaps.1);
  }

  lemma FirstHalfLoses(s: State, c: Config, i: Input)
    requires s.e.engaged && AsksNothing(s) && NoneTakesOff(i.messages)
    requires AnyInterrupts(i.messages) || !i.gaps.0.Quiet? || !i.gaps.1.Quiet?
    ensures LosesOutputs(FirstHalf(s, c, i))
  {
    var h := Heard(s, c, i);
    HeardStays(s, c, i);
    LocalControlAsks(h, c, i);
    if h.p.stage.Off? {
      LocalControlLoses(h, c, i);
    }
    DisturbedAsks(AfterLocalControl(h, c, i.now, i.sensed), i.gaps.1);
  }

  lemma StartupLoses(s: State, aid: AidStep)
    requires LosesOutputs(s)
    ensures LosesOutputs(AfterStartup(s, aid))
  {
  }

  /**
   A trip, a lost external enable or the break input, in a message or at any place of the Spin(), takes an
   engaged drive off, with a local control or without.
   */
  lemma AnyDisturbanceTakesOff(s: State, c: Config, i: Input)
    requires s.e.engaged && !s.e.requested && !s.p.startup && NoneTakesOff(i.messages)
    requires AnyInterrupts(i.messages) || i.gaps != (Quiet, Quiet, Quiet, Quiet)
    ensures var n := Spin(s, c, i);
            !n.e.engaged && n.p.stage.Off? && !n.d.outer.active
  {
    if !i.gaps.3.Quiet? {
      DisturbanceTakesOff(s, c, i);
    } else {
      var f := FirstHalf(s, c, i);
      if i.gaps.2.Quiet? {
        FirstHalfLoses(s, c, i);
      } else {
        FirstHalfStays(s, c, i);
      }
      DisturbedLoses(f, i.gaps.2);
      StartupLoses(Disturbed(f, i.gaps.2), i.aid);
      var b := AfterStartup(Disturbed(f, i.gaps.2), i.aid);
      assert Disturbed(b, i.gaps.3) == b;
      LostStageDisengages(b, c, i.now, i.speed);
      EndOfSpin(Middle(f, c, i), c, i);
    }
  }

  /** A disengage switches the outputs off and leaves a latched fault latched. */
  lemma DisengageKeepsFault(s: State)
    requires s.e.engaged || !s.p.startup
    ensures var n := Disengaged(s);
            && n.p.stage == (if s.p.stage.Off? then s.p.stage else Off(false)) && n.p.tripped == s.p.tripped
            && !n.e.engaged && n.d.setpoint.NoSetpoint? && n.d.outer == NOTHING
            && n.cart.control.mode.Off? && n.cart.control.torque == 0.0
  {
  }
}
