/**
 Two runs from the start of operation that differ in one message: a rider engages the drive and a trip
 comes. Without a register write in the Spin() of the trip the drive stays off; with one it engages again.
 */
module EbikeFaultRun {
  import EbikeControl
  import LiveTuning
  import opened DriveNode
  import opened DriveReadiness
  import opened EbikeDrive

  /** The rider rides on, and a trip comes right before SpinEngagement(). */
  function Tripping(now: int, messages: seq<Message>): (r: Input) {
    Riding(now).(messages := messages, gaps := (Quiet, Quiet, Quiet, Trip))
  }

  /** Engaged for the rider by an e-bike update at `now`, and nothing waits. */
  predicate Ridden(s: State, now: int) {
    && s.e.engaged && !s.e.requested && s.p.stage.Enabled? && !s.p.tripped && Ready(s)
    && s.settings.checkedWrites == s.settings.writes
    && s.ebike.control.started && s.ebike.control.lastUpdate == now && s.ebike.control.output.engage
  }

  predicate StartsWithRider(s: State, c: Config) {
    c.local && Initial(s) && EbikeControl.InitialState(s.ebike.control) && Adjusted(s.ebike.parameters)
  }

  lemma FreshMiddle(s: State, c: Config, i: Input)
    requires s.e.engaged && s.p.stage.Enabled? && !s.p.tripped && s.e.lastReadiness == i.now
    requires !s.p.startup && !s.p.startupSeen && i.gaps == UNDISTURBED
    ensures var m := Middle(s, c, i);
            m.e == s.e && m.p == s.p && m.settings == s.settings && m.ebike == s.ebike
  {
    assert AfterStartup(s, i.aid) == s;
  }

  lemma RequestReleases(r: State, c: Config, i: Input)
    requires !r.e.engaged && r.e.requested && Ready(r) && i.allowed
    ensures var f := AfterRequest(r, c, i.accepted, i.allowed);
            && f.e.engaged && !f.e.requested && f.p.stage.Enabled? && !f.p.tripped && Ready(f)
            && f.e.lastReadiness == r.e.lastReadiness && f.settings == r.settings && f.ebike == r.ebike
  {
  }

  lemma FirstRideAsks(s: State, c: Config, now: int)
    requires StartsWithRider(s, c)
    ensures var r := AfterLocalControl(s, c, now, Riding(now).sensed);
            && r.e.requested && !r.e.engaged && r.e.lastReadiness == now && Ready(r) && r.settings == s.settings
            && r.ebike.parameters == s.ebike.parameters && r.ebike.control.started
            && r.ebike.control.lastUpdate == now && r.ebike.control.output.engage
  {
    RiderIsHeard(s, now);
  }

  lemma LastKeepsRidden(m: State, c: Config, i: Input)
    requires Ridden(m, i.now)
    ensures var n := Last(m, c, i);
            Ridden(n, i.now) && n.settings.live == m.settings.live && n.ebike == m.ebike
  {
  }

  lemma RideStarts(s: State, c: Config, now: int)
    requires StartsWithRider(s, c)
    ensures var n := Spin(s, c, Riding(now));
            && Ridden(n, now) && n.settings.live == s.settings.live && n.ebike.parameters == s.ebike.parameters
  {
    var i := Riding(now);
    RidingAsks(s, c, now);
    FirstRideAsks(s, c, now);
    var r := Asking(s, c, i);
    RequestReleases(r, c, i);
    FreshMiddle(FirstHalf(s, c, i), c, i);
    LastKeepsRidden(Middle(FirstHalf(s, c, i), c, i), c, i);
  }

  /** The first half of the Spin() of the trip: engaged still, with the written settings if there are any. */
  lemma TrippingFirstHalf(s: State, c: Config, now: int, messages: seq<Message>)
    requires c.local && Ridden(s, now)
    requires messages == [] || (|messages| == 1 && messages[0].RegisterWrite?)
    ensures var f := FirstHalf(s, c, Tripping(now, messages));
            && f.e == s.e.(lastReadiness := now) && f.p == s.p && f.ebike.control == s.ebike.control
            && f.settings == Dispatched(s, c, now, messages).settings
            && !RestartsAtEngage(s, c, Tripping(now, messages))
  {
    var i := Tripping(now, messages);
    var d := Dispatched(s, c, now, messages);
    assert d == s || d == s.(settings := d.settings) by {
      if messages != [] {
        assert messages[1..] == [];
        assert d == AfterMessage(s, c, now, messages[0]);
      }
    }
    assert Heard(s, c, i) == d;
    assert !EbikeControl.Computed(d.ebike.control, now);
  }

  lemma TripsInTheMiddle(f: State, c: Config, now: int, messages: seq<Message>)
    requires f.e.engaged && !f.p.startup && !f.p.startupSeen && f.e.lastReadiness == now
    ensures var i := Tripping(now, messages);
            var b := Disturbed(AfterStartup(Disturbed(f, i.gaps.2), i.aid), i.gaps.3);
            FindsStageLost(b, i) && Middle(f, c, i).settings == f.settings
  {
    var i := Tripping(now, messages);
    assert AfterStartup(f, i.aid) == f;
    LostInTheMiddle(f, c, i);
    EngagementFacts(Disturbed(f, Trip), c, now, i.speed);
  }

  /** The trip finds the engaged stage lost; the Spin() restarts the controller exactly if something was written. */
  lemma TripIsFound(s: State, c: Config, now: int, messages: seq<Message>)
    requires c.local && Ridden(s, now)
    requires messages == [] || (|messages| == 1 && messages[0].RegisterWrite? && messages[0].name in s.settings.live)
    ensures var i := Tripping(now, messages);
            && FindsStageLost(BeforeEngagement(s, c, i), i) && !RestartsAtEngage(s, c, i)
            && (RestartsAtEnd(s, c, i) <==> messages != [])
  {
    var i := Tripping(now, messages);
    TrippingFirstHalf(s, c, now, messages);
    var f := FirstHalf(s, c, i);
    TripsInTheMiddle(f, c, now, messages);
    LostInTheMiddle(f, c, i);
    if messages != [] {
      assert messages[1..] == [];
      assert Dispatched(s, c, now, messages) == AfterMessage(s, c, now, messages[0]);
    }
  }

  /** Ride, trip, ride on: however the run goes on, guarded, the drive stays off. */
  lemma TripStopsRider(s: State, c: Config, now: int, after: seq<Input>)
    requires StartsWithRider(s, c)
    requires GuardedRun(Run(s, c, [Riding(now), Tripping(now, [])]), c, after)
    ensures !Run(s, c, [Riding(now), Tripping(now, [])] + after).e.engaged
  {
    var (first, trip) := (Riding(now), Tripping(now, []));
    RideStarts(s, c, now);
    RiderKeepsInv(s, c, first);
    var n := Spin(s, c, first);
    TripIsFound(n, c, now, []);
    RunOfTwo(s, c, first, trip);
    RunSplits(s, c, [first, trip], after);
    FaultStaysOff(n, c, trip, after);
  }

  lemma RiderKeepsInv(s: State, c: Config, i: Input)
    requires StartsWithRider(s, c)
    ensures var n := Spin(s, c, i);
            Inv(n) && !n.e.requested && ResultInv(n.ebike.control)
  {
    InitialInv(s);
    SpinKeepsInv(s, c, i);
    SpinKeepsResult(s, c, i);
  }

  lemma RunOfTwo(s: State, c: Config, i: Input, j: Input)
    ensures Run(s, c, [i, j]) == Spin(Spin(s, c, i), c, j)
  {
    assert [i, j][1..] == [j] && [j][1..] == [];
    assert Run(Spin(s, c, i), c, [j]) == Spin(Spin(s, c, i), c, j);
  }

  /** The e-bike keeps its last update time over the restart, and takes the parameters of the written settings. */
  lemma RestartedRider(s: State, c: Config, now: int, name: LiveTuning.Name, value: int)
    requires c.local && Ridden(s, now) && name in s.settings.live
    ensures var n := Spin(s, c, Tripping(now, [RegisterWrite(name, value)]));
            && n.ebike.control.lastUpdate == now
            && n.ebike.parameters == c.ebikeOf(s.settings.live[name := value])
  {
    var messages := [RegisterWrite(name, value)];
    var i := Tripping(now, messages);
    TrippingFirstHalf(s, c, now, messages);
    var f := FirstHalf(s, c, i);
    TripsInTheMiddle(f, c, now, messages);
    LostInTheMiddle(f, c, i);
    MiddleEbike(f, c, i);
    assert messages[1..] == [];
    assert Dispatched(s, c, now, messages) == AfterMessage(s, c, now, messages[0]);
    LastRestarts(Middle(f, c, i), c, i);
  }

  lemma LastRestarts(m: State, c: Config, i: Input)
    requires c.local && !m.e.engaged && SettingsWait(m) && !m.p.stage.Enabled?
    ensures var n := Last(m, c, i);
            && n.ebike.control.lastUpdate == m.ebike.control.lastUpdate
            && n.ebike.parameters == c.ebikeOf(m.settings.live)
  {
  }

  lemma WriteReleasesHold(n: State, c: Config, now: int, name: LiveTuning.Name, value: int)
    requires c.local && Inv(n) && Ridden(n, now) && ResultInv(n.ebike.control) && name in n.settings.live
    requires Adjusted(c.ebikeOf(n.settings.live[name := value]))
    ensures var t := Spin(n, c, Tripping(now, [RegisterWrite(name, value)]));
            !t.e.engaged && GuardedRun(t, c, RideOn(now)) && Run(t, c, RideOn(now)).e.engaged
  {
    var trip := Tripping(now, [RegisterWrite(name, value)]);
    TripIsFound(n, c, now, [RegisterWrite(name, value)]);
    assert Spin(n, c, trip).ebike.control.lastUpdate == now && Adjusted(Spin(n, c, trip).ebike.parameters) by {
      RestartedRider(n, c, now, name, value);
    }
    WaitingSettingsReengage(n, c, trip);
  }

  /**
   The same with any register write in the Spin() of the trip: the crank turns in all four Spins, which
   take a millisecond, and the fault has not kept the drive off.
   */
  lemma WriteEngagesRiderAgain(s: State, c: Config, now: int, name: LiveTuning.Name, value: int)
    requires StartsWithRider(s, c) && name in s.settings.live
    requires Adjusted(c.ebikeOf(s.settings.live[name := value]))
    ensures var ride := [Riding(now), Tripping(now, [RegisterWrite(name, value)])];
            && GuardedRun(Run(s, c, ride), c, RideOn(now))
            && !Run(s, c, ride).e.engaged && Run(s, c, ride + RideOn(now)).e.engaged
  {
    var (first, trip) := (Riding(now), Tripping(now, [RegisterWrite(name, value)]));
    RideStarts(s, c, now);
    RiderKeepsInv(s, c, first);
    WriteReleasesHold(Spin(s, c, first), c, now, name, value);
    RunOfTwo(s, c, first, trip);
    RunSplits(s, c, [first, trip], RideOn(now));
  }
}
