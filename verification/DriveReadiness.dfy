/**
 When a Spin() engages, what an engaged drive works on, and what keeps it off after a trip; three
 places where the code does other than its documentation says are stated with their exact condition.
 */
module DriveReadiness {
  import opened Units
  import CartControl
  import opened DriveNode

  // ----- Readiness messages of one dispatch ------------------------------------------------------

  function Readings(values: seq<Readiness>): (m: seq<Message>)
    ensures |m| == |values|
  {
    if |values| == 0 then [] else [ReadinessMessage(values[0])] + Readings(values[1..])
  }

  /** Some ENGAGED arrives that no re-arm blocks: there was none, or another readiness came before. */
  predicate Asked(rearm: bool, values: seq<Readiness>) {
    exists k :: 0 <= k < |values| && AskedAt(rearm, values, k)
  }

  predicate AskedAt(rearm: bool, values: seq<Readiness>, k: nat)
    requires k < |values|
  {
    values[k].Engage? && (!rearm || exists j :: 0 <= j < k && !values[j].Engage?)
  }

  lemma AskedSplits(rearm: bool, values: seq<Readiness>)
    requires |values| > 0
    ensures Asked(rearm, values)
            <==> if values[0].Engage? then !rearm || Asked(rearm, values[1..]) else Asked(false, values[1..])
  {
    var (rest, after) := (values[1..], rearm && values[0].Engage?);
    if k :| 0 <= k < |rest| && AskedAt(after, rest, k) {
      if after {
        var j :| 0 <= j < k && !rest[j].Engage?;
        assert !values[j + 1].Engage?;
      } else if rearm {
        assert !values[0].Engage?;
      }
      assert AskedAt(rearm, values, k + 1);
    }
    if values[0].Engage? && !rearm {
      assert AskedAt(rearm, values, 0);
    }
    if k :| 0 <= k < |values| && AskedAt(rearm, values, k) {
      if k > 0 {
        if after {
          var j :| 0 <= j < k && !values[j].Engage?;
          assert !rest[j - 1].Engage?;
        }
        assert AskedAt(after, rest, k - 1);
      }
    }
  }

  /** What readiness messages leave alone in a disengaged drive. */
  predicate OnlyReadinessChanged(s: State, n: State, now: int) {
    && !n.e.engaged && n.e.emergency == s.e.emergency && n.e.lastReadiness == now && n.e.engages == s.e.engages
    && n.p.startup == s.p.startup && n.p.startupSeen == s.p.startupSeen && n.settings == s.settings
    && n.timeout == s.timeout
  }

  lemma {:induction false} RequestedIfAsked(s: State, c: Config, now: int, values: seq<Readiness>)
    requires !c.local && !s.e.engaged && |values| > 0
    ensures var n := Dispatched(s, c, now, Readings(values));
            && (n.e.requested <==> s.e.requested || Asked(s.e.rearm, values))
            && OnlyReadinessChanged(s, n, now)
    decreases |values|
  {
    var messages := Readings(values);
    var n := AfterMessage(s, c, now, messages[0]);
    AskedSplits(s.e.rearm, values);
    assert messages[0] == ReadinessMessage(values[0]) && messages[1..] == Readings(values[1..]);
    assert OnlyReadinessChanged(s, n, now);
    if |values| > 1 {
      RequestedIfAsked(n, c, now, values[1..]);
    } else {
      assert Dispatched(n, c, now, messages[1..]) == n;
    }
  }

  /** Nothing else is going on: no startup aid, no emergency stop, no settings to apply, no trip. */
  predicate Calm(s: State, i: Input) {
    && !s.e.emergency && !s.p.startup && !s.p.startupSeen && !SettingsWait(s) && i.allowed
    && i.gaps == (Quiet, Quiet, Quiet, Quiet)
  }

  lemma EngagesOnRequest(s: State, c: Config, i: Input)
    requires !c.local && !s.e.engaged && Calm(s, i) && s.e.lastReadiness == i.now
    ensures var n := Last(Middle(AfterRequest(s, c, i.accepted, i.allowed), c, i), c, i);
            n.e.engaged <==> s.e.requested
  {
    var f := AfterRequest(s, c, i.accepted, i.allowed);
    MiddleFacts(f, c, i);
    LastFacts(Middle(f, c, i), c, i);
    if s.e.requested {
      assert f.e.engaged && f.p.stage.Enabled? && !f.p.tripped && f.e.lastReadiness == i.now && !f.p.startup;
      StaysEngaged(f, c, i);
    }
  }

  lemma StaysEngaged(s: State, c: Config, i: Input)
    requires s.e.engaged && s.p.stage.Enabled? && !s.p.tripped && s.e.lastReadiness == i.now
    requires !s.p.startup && i.gaps.2.Quiet? && i.gaps.3.Quiet?
    ensures Middle(s, c, i).e.engaged
  {
    var a := AfterStartup(s, i.aid);
    assert a.e == s.e && a.p.stage == s.p.stage && a.p.tripped == s.p.tripped && a.timeout == s.timeout;
    KeptWhileFresh(a, c, i.now, i.speed);
  }

  lemma KeptWhileFresh(s: State, c: Config, now: int, speed: real)
    requires s.e.engaged && s.p.stage.Enabled? && !s.p.tripped && s.e.lastReadiness == now
    ensures AfterEngagement(s, c, now, speed).e.engaged
  {
  }

  /**
   Exactly when the readiness messages of one dispatch engage a calm, disengaged drive. A STANDBY or
   SLEEP behind an ENGAGED of the same dispatch does not withdraw it, although they stand for off.
   */
  lemma SpinEngagesIfAsked(s: State, c: Config, i: Input, values: seq<Readiness>)
    requires !c.local && !s.e.engaged && !s.e.requested && Calm(s, i)
    requires |values| > 0 && i.messages == Readings(values)
    ensures Spin(s, c, i).e.engaged <==> Asked(s.e.rearm, values)
  {
    RequestedIfAsked(s, c, i.now, values);
    var d := AfterBus(Dispatched(s, c, i.now, i.messages), i.busLost);
    assert AfterLocalControl(d, c, i.now, i.sensed) == d;
    EngagesOnRequest(d, c, i);
  }

  /** The last readiness is STANDBY, and the drive is engaged all the same. */
  lemma StandbyDoesNotWithdraw(s: State, c: Config, i: Input)
    requires !c.local && !s.e.engaged && !s.e.requested && !s.e.rearm && Calm(s, i)
    requires i.messages == [ReadinessMessage(Engage), ReadinessMessage(Standby)]
    ensures Spin(s, c, i).e.engaged
  {
    var values := [Engage, Standby];
    assert values[1..] == [Standby] && values[1..][1..] == [];
    assert Readings(values[1..]) == [ReadinessMessage(Standby)] + Readings(values[1..][1..]);
    assert Readings(values) == i.messages;
    assert AskedAt(false, values, 0);
    SpinEngagesIfAsked(s, c, i, values);
  }

  // ----- Taking an engaged drive off -----------------------------------------------------------------

  /** The messages that take an engaged drive off, with a local control or without. */
  predicate TakesOff(m: Message) { Rearms(m) || m.Restart? || m.EmergencyStop? }

  predicate NoneTakesOff(messages: seq<Message>) { forall k :: 0 <= k < |messages| ==> !TakesOff(messages[k]) }

  predicate NoneStartsAid(messages: seq<Message>) { forall k :: 0 <= k < |messages| ==> !messages[k].StartAid? }

  /** Off and nothing asked of the outer loop; only a startup run may have the outputs. */
  predicate TakenOff(s: State) {
    && !s.e.engaged && s.d.outer == NOTHING && s.cart.control.mode.Off?
    && (s.p.stage.Enabled? ==> s.p.startup)
  }

  lemma MessageTakesOff(s: State, c: Config, now: int, m: Message)
    requires s.e.engaged && !s.p.startup
    ensures var n := AfterMessage(s, c, now, m);
            && (n.e.engaged <==> !TakesOff(m)) && !n.p.startup
            && (TakesOff(m) ==> TakenOff(n) && !n.p.stage.Enabled? && n.d.setpoint.NoSetpoint?)
  {
  }

  lemma MessageLeavesOff(s: State, c: Config, now: int, m: Message)
    requires TakenOff(s)
    ensures TakenOff(AfterMessage(s, c, now, m))
    ensures !s.p.startup && !m.StartAid? ==> !AfterMessage(s, c, now, m).p.startup
  {
  }

  lemma {:induction false} DispatchLeavesOff(s: State, c: Config, now: int, messages: seq<Message>)
    requires TakenOff(s)
    ensures var n := Dispatched(s, c, now, messages);
            TakenOff(n) && (!s.p.startup && NoneStartsAid(messages) ==> !n.p.startup)
    decreases |messages|
  {
    if |messages| != 0 {
      MessageLeavesOff(s, c, now, messages[0]);
      DispatchLeavesOff(AfterMessage(s, c, now, messages[0]), c, now, messages[1..]);
    }
  }

  /**
   Whatever a dispatch brings, an engaged drive is on after it exactly if no message takes it off. If one
   does, the outer loop has nothing to work on and the outputs are off, unless a startup run was started since.
   */
  lemma {:induction false} DispatchTakesOff(s: State, c: Config, now: int, messages: seq<Message>)
    requires s.e.engaged && !s.p.startup
    ensures var n := Dispatched(s, c, now, messages);
            && (n.e.engaged <==> NoneTakesOff(messages))
            && (!n.e.engaged ==> TakenOff(n) && (NoneStartsAid(messages) ==> !n.p.stage.Enabled?))
    decreases |messages|
  {
    if |messages| != 0 {
      var n := AfterMessage(s, c, now, messages[0]);
      MessageTakesOff(s, c, now, messages[0]);
      if n.e.engaged {
        DispatchTakesOff(n, c, now, messages[1..]);
        assert NoneTakesOff(messages) <==> NoneTakesOff(messages[1..]) by {
          assert messages == [messages[0]] + messages[1..];
        }
      } else {
        DispatchLeavesOff(n, c, now, messages[1..]);
      }
    }
  }

  /** No dispatch engages: that is done by the request of a Spin() only. */
  lemma {:induction false} DispatchDoesNotEngage(s: State, c: Config, now: int, messages: seq<Message>)
    requires !s.e.engaged
    ensures !Dispatched(s, c, now, messages).e.engaged
    decreases |messages|
  {
    if |messages| != 0 {
      DispatchDoesNotEngage(AfterMessage(s, c, now, messages[0]), c, now, messages[1..]);
    }
  }

  predicate AllEngage(values: seq<Readiness>) { forall k :: 0 <= k < |values| ==> values[k].Engage? }

  lemma {:induction false} ReadinessTakesOff(s: State, c: Config, now: int, values: seq<Readiness>)
    requires !c.local && s.e.engaged && !s.e.requested && |values| > 0
    ensures var n := Dispatched(s, c, now, Readings(values));
            if AllEngage(values) then n == s.(e := s.e.(lastReadiness := now))
            else (n.e.requested <==> Asked(true, values)) && OnlyReadinessChanged(s, n, now)
    decreases |values|
  {
    var messages := Readings(values);
    var n := AfterMessage(s, c, now, messages[0]);
    assert messages[0] == ReadinessMessage(values[0]) && messages[1..] == Readings(values[1..]);
    assert Dispatched(s, c, now, messages) == Dispatched(n, c, now, messages[1..]);
    AskedSplits(true, values);
    if values[0].Engage? {
      assert AllEngage(values) <==> AllEngage(values[1..]) by {
        assert values == [values[0]] + values[1..];
      }
      if |values| > 1 {
        ReadinessTakesOff(n, c, now, values[1..]);
      }
    } else {
      assert OnlyReadinessChanged(s, n, now) && !n.e.requested && !n.e.rearm;
      if |values| > 1 {
        RequestedIfAsked(n, c, now, values[1..]);
      } else {
        assert !Asked(false, values[1..]);
      }
    }
  }

  /**
   The counterpart for an engaged drive: the Spin() ends engaged exactly if no other readiness came, or an
   ENGAGED behind the first other one asked for the drive again.
   */
  lemma SpinStaysEngagedIff(s: State, c: Config, i: Input, values: seq<Readiness>)
    requires !c.local && s.e.engaged && !s.e.requested && Calm(s, i) && s.p.stage.Enabled? && !s.p.tripped
    requires |values| > 0 && i.messages == Readings(values)
    ensures Spin(s, c, i).e.engaged <==> AllEngage(values) || Asked(true, values)
  {
    ReadinessTakesOff(s, c, i.now, values);
    var d := AfterBus(Dispatched(s, c, i.now, i.messages), i.busLost);
    assert AfterLocalControl(d, c, i.now, i.sensed) == d;
    if AllEngage(values) {
      StaysEngaged(d, c, i);
      LastFacts(Middle(d, c, i), c, i);
    } else {
      EngagesOnRequest(d, c, i);
    }
  }

  // ----- After a trip -----------------------------------------------------------------------------

  /** The state in which SpinEngagement() starts. */
  function BeforeEngagement(s: State, c: Config, i: Input): (n: State) {
    Disturbed(AfterStartup(Disturbed(FirstHalf(s, c, i), i.gaps.2), i.aid), i.gaps.3)
  }

  /** SpinEngagement() finds the stage lost, and the readiness in time or the cart holding the engagement. */
  predicate FindsStageLost(b: State, i: Input) {
    && b.e.engaged && (!b.p.stage.Enabled? || b.p.tripped)
    && (Elapsed(i.now, b.e.lastReadiness) <= b.timeout
        || CartControl.OutputOf(CartUpdated(b, i.now, i.speed), b.cart.parameters).holdsEngagement)
  }

  /** Such a Spin() leaves the drive waiting for a re-arm, also in limp-home and while the cart stops. */
  lemma TripWaits(s: State, c: Config, i: Input)
    requires Inv(s) && FindsStageLost(BeforeEngagement(s, c, i), i)
    ensures Waits(Spin(s, c, i))
  {
    FirstHalfKeepsInv(s, c, i);
    var f := FirstHalf(s, c, i);
    var b := BeforeEngagement(s, c, i);
    assert b.e == f.e;
    LostStage(b, c, i);
    assert Middle(f, c, i) == AfterEngagement(b, c, i.now, i.speed);
    LastFacts(Middle(f, c, i), c, i);
  }

  lemma LostStage(s: State, c: Config, i: Input)
    requires FindsStageLost(s, i)
    ensures var n := AfterEngagement(s, c, i.now, i.speed);
            n.e.rearm && !n.e.engaged && n.e.requested == s.e.requested
  {
  }

  /** No later Spin() engages until a readiness other than ENGAGED arrives. */
  lemma TripStaysOff(s: State, c: Config, i: Input, after: seq<Input>)
    requires Inv(s) && !c.local && NoRearm(after) && FindsStageLost(BeforeEngagement(s, c, i), i)
    ensures !Run(Spin(s, c, i), c, after).e.engaged
  {
    TripWaits(s, c, i);
    NoEngageWithoutRearm(Spin(s, c, i), c, after);
  }

  // ----- What an engaged drive works on ------------------------------------------------------------

  lemma SetpointIsFresh(s: State, c: Config, now: int, speed: real)
    ensures var n := AfterEngagement(s, c, now, speed);
            n.e.engaged && n.d.setpoint.Setpoint? ==> Elapsed(now, n.d.at) <= n.timeout && n.timeout == s.timeout
  {
  }

  lemma LastKeepsDemand(s: State, c: Config, i: Input)
    ensures var n := Last(s, c, i);
            n.d == s.d.(outer := Outer(s.e.engaged, s.d.setpoint))
  {
  }

  /** Whatever the outer loop works on after a Spin() was accepted within the command timeout of that Spin(). */
  lemma ActingSetpointIsFresh(s: State, c: Config, i: Input)
    ensures var n := Spin(s, c, i);
            n.d.outer.active && n.d.outer.setpoint.Setpoint? ==>
              n.d.outer.setpoint == n.d.setpoint && Elapsed(i.now, n.d.at) <= FirstHalf(s, c, i).timeout
  {
    var f := FirstHalf(s, c, i);
    var b := BeforeEngagement(s, c, i);
    assert b.timeout == f.timeout;
    SetpointIsFresh(b, c, i.now, i.speed);
    assert Middle(f, c, i) == AfterEngagement(b, c, i.now, i.speed);
    LastKeepsDemand(Middle(f, c, i), c, i);
  }

  /**
   What an engaged drive works on: the torque of the e-bike while that asks for the drive, otherwise
   the torque of the cart once a wheel command came, otherwise the last setpoint of the bus until the
   command timeout.
   */
  lemma ActingSource(s: State, c: Config, now: int, speed: real)
    ensures var n := AfterEngagement(s, c, now, speed);
            var torque := CartControl.ToCart(s.cart.parameters, n.cart.control.torque);
            n.e.engaged ==>
              if c.local && s.ebike.engage then
                n.d.setpoint == Setpoint(FromEbike(s.ebike.torque), s.e.engages) && n.d.at == now
              else if !n.cart.control.mode.Off? then
                n.d.setpoint == Setpoint(FromCart(torque), s.e.engages) && n.d.at == now
              else if s.d.setpoint.Setpoint? && Elapsed(now, s.d.at) <= s.timeout then n.d == s.d
              else n.d.setpoint.NoSetpoint?
  {
  }

  // ----- Settings that the hardware rejects -----------------------------------------------------------

  /**
   An engage that finds waiting settings fails when the hardware rejects them, but only once: the
   settings count as applied, so the next engage releases the outputs with the motor not running.
   */
  lemma RejectedSettingsEngageNextTime(s: State, c: Config)
    requires !s.e.engaged && !s.e.emergency && !s.p.startup && !s.p.stage.Enabled? && SettingsWait(s)
    ensures var first := Engaged(s, c, false, true);
            var second := Engaged(first, c, false, true);
            && !first.e.engaged && !first.p.running && !SettingsWait(first)
            && second.e.engaged && !second.p.running
  {
  }
}
