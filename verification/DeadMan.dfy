/**
 Dead-man bound of a drive without a local control: once messages stop arriving, it disengages
 within a time that the timeouts, the torque and the ramp determine, whatever mode the cart is in.
 */
module DeadMan {
  import opened Units
  import CartControl
  import EbikeControl
  import opened DriveNode

  /** Nothing arrives; trips, faults and a bus-off may still happen. */
  predicate Unheard(i: Input) { i.messages == [] }

  /** After a Spin(): no request is left over and every register write was looked at. */
  predicate Settled(s: State) {
    !s.e.requested && (s.e.engaged ==> s.settings.writes == s.settings.checkedWrites)
  }

  function Bus(s: State, i: Input): (r: CartControl.State) {
    if i.busLost then CartControl.AfterBusLost(s.cart.control) else s.cart.control
  }

  function Advanced(s: State, i: Input): (r: CartControl.State) {
    CartControl.AfterUpdate(Bus(s, i), s.cart.parameters, i.now, i.speed, true)
  }

  lemma UnheardFirstHalf(s: State, c: Config, i: Input)
    requires Unheard(i) && !c.local && !s.e.requested
    ensures var n := FirstHalf(s, c, i);
            && n.e == s.e && n.settings == s.settings && n.timeout == s.timeout
            && n.cart == s.cart.(control := Bus(s, i))
  {
    assert Dispatched(s, c, i.now, i.messages) == s;
  }

  lemma UnheardMiddle(s: State, c: Config, i: Input)
    requires !c.local
    ensures var n := Middle(s, c, i);
            n.e.engaged ==>
              && s.e.engaged && n.e == s.e && n.timeout == s.timeout
              && n.settings.writes == s.settings.writes && n.settings.checkedWrites == s.settings.checkedWrites
              && n.cart == s.cart.(control :=
                   CartControl.AfterUpdate(s.cart.control, s.cart.parameters, i.now, i.speed, true))
              && (Elapsed(i.now, s.e.lastReadiness) <= s.timeout
                  || CartControl.OutputOf(n.cart.control, n.cart.parameters).holdsEngagement)
  {
    var a := AfterStartup(Disturbed(s, i.gaps.2), i.aid);
    assert a.e == s.e && a.cart == s.cart && a.timeout == s.timeout;
    assert a.settings.writes == s.settings.writes && a.settings.checkedWrites == s.settings.checkedWrites;
    var d := Disturbed(a, i.gaps.3);
    assert d.e == s.e && d.cart == s.cart && d.timeout == s.timeout && d.settings == a.settings;
    StillEngaged(d, c, i.now, i.speed);
  }

  lemma StillEngaged(s: State, c: Config, now: int, speed: real)
    ensures var n := AfterEngagement(s, c, now, speed);
            n.e.engaged ==>
              && n.e == s.e && n.timeout == s.timeout && n.settings == s.settings
              && n.cart == s.cart.(control := CartUpdated(s, now, speed))
              && (Elapsed(now, s.e.lastReadiness) <= s.timeout
                  || CartControl.OutputOf(n.cart.control, n.cart.parameters).holdsEngagement)
  {
  }

  /** A Spin() that hears nothing and leaves the drive engaged only advances the cart. */
  lemma UnheardSpin(s: State, c: Config, i: Input)
    requires Unheard(i) && !c.local && Settled(s)
    ensures var n := Spin(s, c, i);
            && Settled(n)
            && (n.e.engaged ==>
                  && s.e.engaged && n.e == s.e && n.timeout == s.timeout
                  && n.cart == s.cart.(control := Advanced(s, i))
                  && (Elapsed(i.now, s.e.lastReadiness) <= s.timeout
                      || CartControl.OutputOf(n.cart.control, n.cart.parameters).holdsEngagement))
  {
    UnheardFirstHalf(s, c, i);
    var f := FirstHalf(s, c, i);
    MiddleFacts(f, c, i);
    UnheardMiddle(f, c, i);
    var m := Middle(f, c, i);
    LastFacts(m, c, i);
    LastSettled(m, c, i);
  }

  lemma LastSettled(s: State, c: Config, i: Input)
    requires Settled(s)
    ensures Settled(Last(s, c, i))
    ensures s.e.engaged ==> Last(s, c, i).timeout == s.timeout && Last(s, c, i).cart == s.cart
  {
  }

  // ----- The bound -------------------------------------------------------------------------------

  /** All messages arrived up to `t0`, and the clock has not gone past `clock`. */
  predicate HeardUntil(s: State, t0: int, clock: int) {
    var k := s.cart.control;
    && 0 <= t0 && 0 <= clock < CLOCK_WRAP
    && 0 <= s.e.lastReadiness <= t0 && 0 <= k.commandAt <= t0 && 0 <= k.pedalsAt <= t0
    && 0 <= k.lastUpdate <= clock
    && s.cart.parameters.ramp > 0.0
    && CartControl.Valid(k)
  }

  predicate InOrder(clock: int, inputs: seq<Input>)
    decreases |inputs|
  {
    |inputs| == 0 ||
    (Unheard(inputs[0]) && clock <= inputs[0].now < CLOCK_WRAP && InOrder(inputs[0].now, inputs[1..]))
  }

  /** Every input of the cart is older than its timeout. */
  predicate PastTimeout(s: State, t0: int, now: int) { Seconds(now - t0) > s.cart.parameters.timeout }

  /** From the silence on: the cart is off, or it stops along the ramp from the torque it had at `from`. */
  predicate Stops(s: State, torque: real, from: int) {
    var k := s.cart.control;
    || k.mode.Off?
    || (k.mode.Stopping? && Abs(k.torque) == CartControl.Decayed(torque, s.cart.parameters, k.lastUpdate - from))
  }

  /** `torque` and `from` belong to the newest update (`first`), or the cart stops from there on. */
  predicate Since(s: State, torque: real, from: int, first: bool) {
    if first then torque == s.cart.control.torque && from == s.cart.control.lastUpdate else Stops(s, torque, from)
  }

  /** What an unheard Spin() that leaves the drive engaged does to a state. */
  predicate Follows(s: State, n: State, i: Input) {
    && n.e == s.e && n.timeout == s.timeout && n.cart == s.cart.(control := Advanced(s, i))
  }

  lemma StillHeardUntil(s: State, n: State, t0: int, clock: int, i: Input)
    requires HeardUntil(s, t0, clock) && clock <= i.now < CLOCK_WRAP && Follows(s, n, i)
    ensures HeardUntil(n, t0, i.now)
  {
  }

  /** The first update past the timeout starts the ramp; the following ones continue it. */
  lemma StopsOnward(s: State, n: State, t0: int, clock: int, i: Input, torque: real, from: int, first: bool)
    requires HeardUntil(s, t0, clock) && clock <= i.now < CLOCK_WRAP && Follows(s, n, i)
    requires PastTimeout(s, t0, i.now) && t0 <= i.now && 0 <= from <= s.cart.control.lastUpdate
    requires Since(s, torque, from, first)
    ensures Stops(n, torque, from)
  {
    var k := Bus(s, i);
    var p := s.cart.parameters;
    assert CartControl.Silent(k, p, i.now);
    if !k.mode.Off? {
      CartControl.SilentUpdate(k, p, i.now, i.speed);
      if !first {
        CartControl.DecayAdds(torque, k.torque, p, k.lastUpdate - from, i.now - k.lastUpdate);
      }
    }
  }

  lemma {:induction false} OffStaysOff(s: State, c: Config, clock: int, inputs: seq<Input>)
    requires !c.local && Settled(s) && InOrder(clock, inputs) && !s.e.engaged
    ensures !Run(s, c, inputs).e.engaged && Settled(Run(s, c, inputs))
    decreases |inputs|
  {
    if |inputs| != 0 {
      UnheardSpin(s, c, inputs[0]);
      OffStaysOff(Spin(s, c, inputs[0]), c, inputs[0].now, inputs[1..]);
    }
  }

  /** `since` is at least the cart timeout plus the time that the ramp takes for the whole torque. */
  predicate RampDone(p: CartControl.Parameters, torque: real, since: int) {
    p.ramp * (Seconds(since) - p.timeout) >= Abs(torque)
  }

  /** Later than the command timeout, and late enough for the ramp. */
  predicate SilentEnough(s: State, t0: int, torque: real, now: int) {
    now - t0 > s.timeout && RampDone(s.cart.parameters, torque, now - t0)
  }

  lemma RampedOut(torque: real, p: CartControl.Parameters, from: int, now: int, t0: int)
    requires p.ramp > 0.0 && Seconds(from - t0) <= p.timeout && RampDone(p, torque, now - t0)
    ensures CartControl.Decayed(torque, p, now - from) == 0.0
  {
    ProductOrder(p.ramp, Seconds(now - t0) - p.timeout, Seconds(now - from));
  }

  /** With the ramp done, the cart no longer holds the engagement. */
  lemma NothingHolds(n: State, torque: real, from: int, t0: int)
    requires n.cart.parameters.ramp > 0.0 && !PastTimeout(n, t0, from)
    requires Stops(n, torque, from) && RampDone(n.cart.parameters, torque, n.cart.control.lastUpdate - t0)
    ensures !CartControl.OutputOf(n.cart.control, n.cart.parameters).holdsEngagement
  {
    RampedOut(torque, n.cart.parameters, from, n.cart.control.lastUpdate, t0);
  }

  /** Neither the readiness nor the cart keeps the drive engaged then. */
  lemma NothingKeeps(s: State, n: State, t0: int, clock: int, i: Input, torque: real, from: int)
    requires HeardUntil(s, t0, clock) && clock <= i.now < CLOCK_WRAP && Follows(s, n, i) && t0 <= i.now
    requires !PastTimeout(s, t0, from) && Stops(n, torque, from)
    requires SilentEnough(s, t0, torque, i.now)
    ensures Elapsed(i.now, s.e.lastReadiness) > s.timeout
    ensures !CartControl.OutputOf(n.cart.control, n.cart.parameters).holdsEngagement
  {
    NothingHolds(n, torque, from, t0);
  }

  /** What a late Spin() that leaves the drive engaged hands on to the next one. */
  predicate StillStopping(s: State, n: State, t0: int, i: Input, torque: real, from: int) {
    && HeardUntil(n, t0, i.now) && Stops(n, torque, from)
    && n.timeout == s.timeout && n.cart.parameters == s.cart.parameters && from <= n.cart.control.lastUpdate
  }

  lemma LaterStill(s: State, t0: int, clock: int, late: seq<Input>)
    requires |late| > 0 && InOrder(clock, late) && t0 <= clock && PastTimeout(s, t0, clock)
    ensures t0 <= late[0].now && PastTimeout(s, t0, late[0].now)
  {
  }

  lemma LateSpin(s: State, c: Config, t0: int, clock: int, i: Input, torque: real, from: int, first: bool)
    requires !c.local && Settled(s) && Unheard(i) && clock <= i.now < CLOCK_WRAP
    requires HeardUntil(s, t0, clock) && t0 <= i.now && PastTimeout(s, t0, i.now)
    requires 0 <= from <= s.cart.control.lastUpdate && !PastTimeout(s, t0, from) && Since(s, torque, from, first)
    ensures var n := Spin(s, c, i);
            && Settled(n) && (n.e.engaged ==> StillStopping(s, n, t0, i, torque, from))
            && (SilentEnough(s, t0, torque, i.now) ==> !n.e.engaged)
  {
    var n := Spin(s, c, i);
    UnheardSpin(s, c, i);
    if n.e.engaged {
      StillHeardUntil(s, n, t0, clock, i);
      StopsOnward(s, n, t0, clock, i, torque, from, first);
      if SilentEnough(s, t0, torque, i.now) {
        NothingKeeps(s, n, t0, clock, i, torque, from);
        assert false;
      }
    }
  }

  /** If still engaged, the drive has more late Spins before it, the last of them late enough. */
  predicate Onward(n: State, t0: int, clock: int, rest: seq<Input>, torque: real, from: int) {
    n.e.engaged ==>
      && |rest| > 0 && SilentEnough(n, t0, torque, rest[|rest| - 1].now) && HeardUntil(n, t0, clock)
      && PastTimeout(n, t0, clock) && !PastTimeout(n, t0, from)
      && 0 <= from <= n.cart.control.lastUpdate && Stops(n, torque, from)
  }

  lemma StoppingIsOnward(s: State, n: State, t0: int, late: seq<Input>, torque: real, from: int)
    requires |late| > 0 && PastTimeout(s, t0, late[0].now) && 0 <= from && !PastTimeout(s, t0, from)
    requires SilentEnough(s, t0, torque, late[|late| - 1].now)
    requires n.e.engaged ==> StillStopping(s, n, t0, late[0], torque, from) && !SilentEnough(s, t0, torque, late[0].now)
    ensures Onward(n, t0, late[0].now, late[1..], torque, from)
  {
    assert |late| > 1 ==> late[1..][|late| - 2] == late[|late| - 1];
  }

  /**
   The bound from the last update within the cart timeout on; `torque` and `from` are the torque and
   the time of that update (`first`: it is the newest one).
   */
  lemma {:induction false} SilenceDisengages(s: State, c: Config, t0: int, clock: int, late: seq<Input>,
                                             torque: real, from: int, first: bool)
    requires !c.local && Settled(s) && InOrder(clock, late) && |late| > 0
    requires HeardUntil(s, t0, clock) && t0 <= late[0].now && PastTimeout(s, t0, late[0].now)
    requires 0 <= from <= s.cart.control.lastUpdate && !PastTimeout(s, t0, from)
    requires Since(s, torque, from, first)
    requires SilentEnough(s, t0, torque, late[|late| - 1].now)
    ensures !Run(s, c, late).e.engaged
    decreases |late|, 0
  {
    var n := Spin(s, c, late[0]);
    LateSpin(s, c, t0, clock, late[0], torque, from, first);
    StoppingIsOnward(s, n, t0, late, torque, from);
    LateRest(n, c, t0, late[0].now, late[1..], torque, from);
  }

  lemma LateRest(n: State, c: Config, t0: int, clock: int, rest: seq<Input>, torque: real, from: int)
    requires !c.local && Settled(n) && InOrder(clock, rest) && t0 <= clock && Onward(n, t0, clock, rest, torque, from)
    ensures !Run(n, c, rest).e.engaged
    decreases |rest|, 1
  {
    if n.e.engaged {
      LaterStill(n, t0, clock, rest);
      SilenceDisengages(n, c, t0, clock, rest, torque, from, false);
    } else {
      OffStaysOff(n, c, clock, rest);
    }
  }

  /**
   The dead-man bound. Nothing is heard after `t0`: the spins of `early` are within the cart timeout
   of `t0` and those of `late` past it. Then every Spin() later than `t0` plus the command timeout
   and at least the cart timeout plus |torque| / ramp after `t0` ends disengaged, where the torque is
   the one of the last early update; it does not matter in which mode the cart was and how the Spins
   are spaced.
   */
  lemma {:induction false} DeadManBound(s: State, c: Config, t0: int, clock: int, early: seq<Input>, late: seq<Input>)
    requires !c.local && Settled(s) && HeardUntil(s, t0, clock) && InOrder(clock, early + late)
    requires !PastTimeout(s, t0, s.cart.control.lastUpdate)
    requires forall k :: 0 <= k < |early| ==> !PastTimeout(s, t0, early[k].now)
    requires |late| > 0 && t0 <= late[0].now && PastTimeout(s, t0, late[0].now)
    requires late[|late| - 1].now - t0 > s.timeout
    requires RampDone(s.cart.parameters, Run(s, c, early).cart.control.torque, late[|late| - 1].now - t0)
    ensures !Run(s, c, early + late).e.engaged
    decreases |early|
  {
    var all := early + late;
    if |early| == 0 {
      assert all == late;
      SilenceDisengages(s, c, t0, clock, late, s.cart.control.torque, s.cart.control.lastUpdate, true);
    } else {
      var i := early[0];
      var n := Spin(s, c, i);
      assert all[0] == i && all[1..] == early[1..] + late;
      UnheardSpin(s, c, i);
      if n.e.engaged {
        StillHeardUntil(s, n, t0, clock, i);
        DeadManBound(n, c, t0, i.now, early[1..], late);
      } else {
        OffStaysOff(n, c, i.now, all[1..]);
      }
    }
  }

  // ----- The bound applies after every run ----------------------------------------------------------------

  /** The registers pass validation: the ramp is positive and the cart timeout not negative. */
  ghost predicate ValidParameters(c: Config) {
    forall r :: c.cartOf(r).ramp > 0.0 && c.cartOf(r).timeout >= 0.0
  }

  /** Every time stamp is at most `clock`, and the cart has valid parameters. */
  predicate Stamped(s: State, clock: int) {
    var k := s.cart.control;
    && 0 <= clock && 0 <= s.e.lastReadiness <= clock
    && 0 <= k.commandAt <= clock && 0 <= k.pedalsAt <= clock && 0 <= k.lastUpdate <= clock
    && s.cart.parameters.ramp > 0.0 && s.cart.parameters.timeout >= 0.0
  }

  lemma MessageStamps(s: State, c: Config, now: int, m: Message)
    requires Stamped(s, now)
    ensures Stamped(AfterMessage(s, c, now, m), now)
  {
  }

  lemma {:induction false} DispatchStamps(s: State, c: Config, now: int, messages: seq<Message>)
    requires Stamped(s, now)
    ensures Stamped(Dispatched(s, c, now, messages), now)
    decreases |messages|
  {
    if |messages| != 0 {
      MessageStamps(s, c, now, messages[0]);
      DispatchStamps(AfterMessage(s, c, now, messages[0]), c, now, messages[1..]);
    }
  }

  lemma LocalStamps(s: State, c: Config, now: int, sensed: EbikeControl.Sensed)
    requires Stamped(s, now)
    ensures Stamped(AfterLocalControl(s, c, now, sensed), now)
  {
  }

  lemma AppliedStamps(s: State, c: Config, accepted: bool, clock: int)
    requires ValidParameters(c) && Stamped(s, clock)
    ensures Stamped(SettingsApplied(s, c, accepted), clock)
  {
  }

  lemma ReleasedStamps(s: State, allowed: bool, clock: int)
    requires Stamped(s, clock)
    ensures Stamped(Released(s, allowed), clock)
  {
  }

  lemma RequestStamps(s: State, c: Config, accepted: bool, allowed: bool, clock: int)
    requires ValidParameters(c) && Stamped(s, clock)
    ensures Stamped(AfterRequest(s, c, accepted, allowed), clock)
  {
    var r := s.(e := s.e.(requested := false));
    AppliedStamps(r, c, accepted, clock);
    ReleasedStamps(r, allowed, clock);
    ReleasedStamps(SettingsApplied(r, c, accepted), allowed, clock);
    var e := Engaged(r, c, accepted, allowed);
    assert e in {r, r.(e := r.e.(rearm := true)), Released(r, allowed), SettingsApplied(r, c, accepted),
                 Released(SettingsApplied(r, c, accepted), allowed)};
  }

  lemma EngagementStamps(s: State, c: Config, now: int, speed: real)
    requires Stamped(s, now)
    ensures Stamped(AfterEngagement(s, c, now, speed), now)
  {
  }

  lemma LastStamps(s: State, c: Config, i: Input)
    requires ValidParameters(c)
    requires Stamped(s, i.now)
    ensures Stamped(Last(s, c, i), i.now) && (!s.e.requested ==> Settled(Last(s, c, i)))
  {
  }

  lemma FirstHalfStamps(s: State, c: Config, i: Input)
    requires ValidParameters(c)
    requires Stamped(s, i.now)
    ensures Stamped(FirstHalf(s, c, i), i.now)
  {
    DispatchStamps(s, c, i.now, i.messages);
    var h := Heard(s, c, i);
    LocalStamps(h, c, i.now, i.sensed);
    RequestStamps(Disturbed(AfterLocalControl(h, c, i.now, i.sensed), i.gaps.1), c, i.accepted, i.allowed, i.now);
  }

  lemma MiddleStamps(s: State, c: Config, i: Input)
    requires Stamped(s, i.now)
    ensures Stamped(Middle(s, c, i), i.now)
  {
    var d := Disturbed(AfterStartup(Disturbed(s, i.gaps.2), i.aid), i.gaps.3);
    assert d.e == s.e && d.cart == s.cart;
    EngagementStamps(d, c, i.now, i.speed);
  }

  /** After a Spin() at `i.now` every stamp is at most `i.now`, and nothing is left over. */
  lemma SpinStamps(s: State, c: Config, i: Input)
    requires ValidParameters(c) && Inv(s) && Stamped(s, i.now)
    ensures Stamped(Spin(s, c, i), i.now) && Settled(Spin(s, c, i))
  {
    FirstHalfStamps(s, c, i);
    FirstHalfKeepsInv(s, c, i);
    var f := FirstHalf(s, c, i);
    MiddleStamps(f, c, i);
    MiddleFacts(f, c, i);
    LastStamps(Middle(f, c, i), c, i);
  }

  /** The clock never goes back. */
  predicate Timed(clock: int, inputs: seq<Input>)
    decreases |inputs|
  {
    |inputs| == 0 || (clock <= inputs[0].now < CLOCK_WRAP && Timed(inputs[0].now, inputs[1..]))
  }

  lemma {:induction false} RunStamps(s: State, c: Config, clock: int, inputs: seq<Input>)
    requires ValidParameters(c) && Inv(s) && Stamped(s, clock) && Timed(clock, inputs) && |inputs| > 0
    ensures var n := Run(s, c, inputs);
            Inv(n) && Stamped(n, inputs[|inputs| - 1].now) && Settled(n) && inputs[|inputs| - 1].now < CLOCK_WRAP
    decreases |inputs|
  {
    var n := Spin(s, c, inputs[0]);
    SpinStamps(s, c, inputs[0]);
    SpinKeepsInv(s, c, inputs[0]);
    if |inputs| > 1 {
      RunStamps(n, c, inputs[0].now, inputs[1..]);
    }
  }

  /** From `m` on nothing is heard, first within the cart timeout, then for long enough. */
  predicate SilentForLong(m: State, c: Config, t0: int, early: seq<Input>, late: seq<Input>) {
    && InOrder(t0, early + late) && |late| > 0
    && (forall k :: 0 <= k < |early| ==> !PastTimeout(m, t0, early[k].now))
    && t0 <= late[0].now && PastTimeout(m, t0, late[0].now)
    && late[|late| - 1].now - t0 > m.timeout
    && RampDone(m.cart.parameters, Run(m, c, early).cart.control.torque, late[|late| - 1].now - t0)
  }

  lemma SilenceFrom(m: State, c: Config, t0: int, early: seq<Input>, late: seq<Input>)
    requires !c.local && Inv(m) && Stamped(m, t0) && Settled(m) && t0 < CLOCK_WRAP
    requires SilentForLong(m, c, t0, early, late)
    ensures !Run(m, c, early + late).e.engaged
  {
    DeadManBound(m, c, t0, t0, early, late);
  }

  /**
   From the start: any history that ends at `t0`, whatever arrived in it, and then silence. The torque
   is the one of the last update within the cart timeout of `t0`.
   */
  lemma SilenceAfterAnyHistory(s: State, c: Config, clock: int, heard: seq<Input>, early: seq<Input>, late: seq<Input>)
    requires !c.local && ValidParameters(c) && Initial(s) && Stamped(s, clock) && Timed(clock, heard) && |heard| > 0
    requires SilentForLong(Run(s, c, heard), c, heard[|heard| - 1].now, early, late)
    ensures !Run(s, c, heard + (early + late)).e.engaged
  {
    InitialInv(s);
    RunStamps(s, c, clock, heard);
    RunSplits(s, c, heard, early + late);
    SilenceFrom(Run(s, c, heard), c, heard[|heard| - 1].now, early, late);
  }
}
