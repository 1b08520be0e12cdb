/**
 Engagement on demand of the e-bike: the drive is asked for while the crank turns at an assist
 level, is held for a while after that, and a fault latches it off until the pedals stood still.

 The pedal observer, the display decoder and the assist law are inputs of an update.
 */
module EbikeControl {
  import opened Units

  const STEP_MICROS := 1000

  /** Times in microseconds. */
  datatype Parameters = Parameters(engageHold: nat, rearmStill: nat, displayTimeout: nat)

  /** What one update finds: the decoded requests (their assist levels), the crank, the assist torque. */
  datatype Sensed = Sensed(requests: seq<nat>, pedaling: bool, torque: real)

  datatype Vehicle = Vehicle(engaged: bool, faulted: bool)

  datatype Output = Output(engage: bool, torque: real)

  datatype Display = Display(alive: bool, level: nat, lastRequest: int)

  datatype Engagement = Engagement(wanting: bool, lastWant: int, latched: bool, stillSince: int, wasEngaged: bool)

  datatype State = State(started: bool, lastUpdate: int, display: Display, e: Engagement, output: Output)

  // ----- Update ----------------------------------------------------------------------------

  /** Calls closer together than the step return the last result and change nothing. */
  predicate Computed(s: State, now: int) { !s.started || Elapsed(now, s.lastUpdate) >= STEP_MICROS }

  function AfterDisplay(d: Display, p: Parameters, now: int, requests: seq<nat>): (n: Display) {
    var r := if |requests| == 0 then d else Display(true, requests[|requests| - 1], now);
    r.(alive := r.alive && Elapsed(now, r.lastRequest) < p.displayTimeout)
  }

  predicate Want(d: Display, pedaling: bool) { d.alive && d.level > 0 && pedaling }

  /** A fault while the drive is wanted or was engaged latches; still pedals clear the latch. */
  function AfterLatch(e: Engagement, p: Parameters, now: int, pedaling: bool, want: bool, v: Vehicle): (n: Engagement) {
    var still := if pedaling then now else e.stillSince;
    var latched := e.latched || (v.faulted && (e.wanting || e.wasEngaged || want));
    e.(stillSince := still, latched := latched && Elapsed(now, still) < p.rearmStill)
  }

  function AfterWant(e: Engagement, p: Parameters, now: int, want: bool): (n: Engagement) {
    if want && !e.latched then e.(wanting := true, lastWant := now)
    else if e.latched || Elapsed(now, e.lastWant) >= p.engageHold then e.(wanting := false)
    else e
  }

  function AfterUpdate(s: State, p: Parameters, now: int, i: Sensed, v: Vehicle): (n: State) {
    if !Computed(s, now) then s
    else
      var d := AfterDisplay(s.display, p, now, i.requests);
      var want := Want(d, i.pedaling);
      var begun := if s.started then s.e else s.e.(stillSince := now);
      var e := AfterWant(AfterLatch(begun, p, now, i.pedaling, want, v), p, now, want);
      State(true, now, d, e.(wasEngaged := v.engaged), Output(e.wanting && !e.latched, i.torque))
  }

  /** A readiness other than ENGAGED on the bus. */
  function AfterInhibit(s: State): (n: State) { s.(e := s.e.(latched := true, wanting := false)) }

  /** New parameters. */
  function AfterConfigure(s: State): (n: State) {
    s.(e := s.e.(wanting := false, latched := false), output := Output(false, 0.0))
  }

  // ----- Runs with their history ------------------------------------------------------------

  datatype Event = Update(now: int, sensed: Sensed, vehicle: Vehicle) | Inhibit | Configure

  /**
   `pedalled` lists the start and the computed updates that saw the crank turn, `requested` those
   that decoded a request, with its assist level in `levels`, `engages` those that asked for the drive.
   `rides` lists the computed updates that were ridden, since the newest latch or new parameters.
   `clock` is the newest time.
   */
  datatype Trace = Trace(s: State, clock: int, pedalled: seq<int>, requested: seq<int>, levels: seq<nat>,
                         engages: seq<int>, rides: seq<int>)

  /** The crank turns, and the newest request is within the display timeout and asks for assistance. */
  predicate Ridden(requested: seq<int>, levels: seq<nat>, p: Parameters, now: int, pedaling: bool) {
    && pedaling && 0 < |requested| == |levels|
    && levels[|levels| - 1] > 0 && now < requested[|requested| - 1] + p.displayTimeout
  }

  function Next(t: Trace, p: Parameters, e: Event): (n: Trace) {
    match e
    case Inhibit => t.(s := AfterInhibit(t.s), rides := [])
    case Configure => t.(s := AfterConfigure(t.s), rides := [])
    case Update(now, i, v) =>
      if !Computed(t.s, now) then t.(clock := now)
      else
        var u := AfterUpdate(t.s, p, now, i, v);
        var requested := if |i.requests| > 0 then t.requested + [now] else t.requested;
        var levels := if |i.requests| > 0 then t.levels + [i.requests[|i.requests| - 1]] else t.levels;
        Trace(u, now, if i.pedaling || !t.s.started then t.pedalled + [now] else t.pedalled, requested, levels,
              if u.output.engage then t.engages + [now] else t.engages,
              if u.e.latched then [] else if Ridden(requested, levels, p, now, i.pedaling) then t.rides + [now]
              else t.rides)
  }

  predicate Timely(t: Trace, e: Event) { e.Update? ==> t.clock <= e.now < CLOCK_WRAP }

  function Run(t: Trace, p: Parameters, events: seq<Event>): (n: Trace)
    decreases |events|
  {
    if |events| == 0 then t else Run(Next(t, p, events[0]), p, events[1..])
  }

  predicate AllTimely(t: Trace, p: Parameters, events: seq<Event>)
    decreases |events|
  {
    |events| == 0 || (Timely(t, events[0]) && AllTimely(Next(t, p, events[0]), p, events[1..]))
  }

  predicate InitialState(s: State) {
    && !s.started && s.lastUpdate == 0
    && !s.display.alive && s.display.lastRequest == 0
    && s.e == Engagement(false, 0, false, 0, false) && !s.output.engage
  }

  predicate Initial(t: Trace) {
    && InitialState(t.s) && 0 <= t.clock < CLOCK_WRAP
    && t.pedalled == [] && t.requested == [] && t.levels == [] && t.engages == [] && t.rides == []
  }

  predicate ClockInv(s: State, clock: int) {
    && 0 <= clock < CLOCK_WRAP && 0 <= s.lastUpdate <= clock && 0 <= s.display.lastRequest <= clock
    && 0 <= s.e.lastWant <= clock && 0 <= s.e.stillSince <= clock
  }

  /** A list of times whose newest one is `newest`. */
  predicate NewestIs(times: seq<int>, newest: int) {
    && |times| > 0 && times[|times| - 1] == newest
    && forall k :: 0 <= k < |times| ==> times[k] <= newest
  }

  predicate PedalInv(t: Trace) {
    if t.s.started then NewestIs(t.pedalled, t.s.e.stillSince) else t.pedalled == []
  }

  predicate RequestInv(t: Trace, p: Parameters) {
    && |t.levels| == |t.requested|
    && (t.requested == [] ==> !t.s.display.alive)
    && (t.requested != [] ==>
          && NewestIs(t.requested, t.s.display.lastRequest) && t.s.display.level == t.levels[|t.levels| - 1]
          && t.s.started && (!t.s.display.alive ==> t.s.lastUpdate >= t.s.display.lastRequest + p.displayTimeout))
  }

  /** The e-bike state remembers the newest time of each kind. */
  predicate HistoryInv(t: Trace, p: Parameters) { PedalInv(t) && RequestInv(t, p) }

  /** The drive is only wanted on the strength of a display request that was fresh at that time. */
  predicate WantInv(t: Trace, p: Parameters) {
    t.s.e.wanting ==> t.requested != [] && t.s.e.lastWant < t.s.display.lastRequest + p.displayTimeout
  }

  /** The drive is wanted from a ride on until the hold is over. */
  predicate RideInv(t: Trace, p: Parameters) {
    && (t.s.e.wanting ==> t.rides != [])
    && (t.rides != [] ==>
          && NewestIs(t.rides, t.s.e.lastWant) && t.s.started && t.s.e.lastWant <= t.s.lastUpdate
          && (t.s.e.wanting || t.s.lastUpdate - t.s.e.lastWant >= p.engageHold))
  }

  predicate Inv(t: Trace, p: Parameters) {
    ClockInv(t.s, t.clock) && HistoryInv(t, p) && WantInv(t, p) && RideInv(t, p)
  }

  lemma NewestGrows(times: seq<int>, newest: int, now: int)
    requires times != [] ==> NewestIs(times, newest) && newest <= now
    ensures NewestIs(times + [now], now)
  {
  }

  lemma ComputedKeepsPedalled(t: Trace, p: Parameters, e: Event)
    requires Inv(t, p) && Timely(t, e) && e.Update? && Computed(t.s, e.now)
    ensures PedalInv(Next(t, p, e))
  {
    NewestGrows(t.pedalled, t.s.e.stillSince, e.now);
  }

  lemma ComputedKeepsRequests(t: Trace, p: Parameters, e: Event)
    requires Inv(t, p) && Timely(t, e) && e.Update? && Computed(t.s, e.now)
    ensures RequestInv(Next(t, p, e), p)
  {
    NewestGrows(t.requested, t.s.display.lastRequest, e.now);
  }

  lemma ComputedKeepsHistory(t: Trace, p: Parameters, e: Event)
    requires Inv(t, p) && Timely(t, e) && e.Update? && Computed(t.s, e.now)
    ensures HistoryInv(Next(t, p, e), p)
  {
    ComputedKeepsPedalled(t, p, e);
    ComputedKeepsRequests(t, p, e);
  }

  lemma ComputedKeepsWant(t: Trace, p: Parameters, e: Event)
    requires Inv(t, p) && Timely(t, e) && e.Update? && Computed(t.s, e.now)
    ensures WantInv(Next(t, p, e), p)
  {
  }

  /** What an update takes for a want is what the history says about the rider. */
  lemma WantedIsRidden(t: Trace, p: Parameters, e: Event)
    requires Inv(t, p) && Timely(t, e) && e.Update? && Computed(t.s, e.now)
    ensures var n := Next(t, p, e);
            Want(n.s.display, e.sensed.pedaling) <==> Ridden(n.requested, n.levels, p, e.now, e.sensed.pedaling)
  {
  }

  lemma ComputedKeepsRides(t: Trace, p: Parameters, e: Event)
    requires Inv(t, p) && Timely(t, e) && e.Update? && Computed(t.s, e.now)
    ensures RideInv(Next(t, p, e), p)
  {
    WantedIsRidden(t, p, e);
    NewestGrows(t.rides, t.s.e.lastWant, e.now);
  }

  lemma ComputedKeepsClock(t: Trace, p: Parameters, e: Event)
    requires Inv(t, p) && Timely(t, e) && e.Update? && Computed(t.s, e.now)
    ensures ClockInv(Next(t, p, e).s, Next(t, p, e).clock)
  {
  }

  lemma NextKeepsInv(t: Trace, p: Parameters, e: Event)
    requires Inv(t, p) && Timely(t, e)
    ensures Inv(Next(t, p, e), p)
  {
    if e.Update? && Computed(t.s, e.now) {
      ComputedKeepsClock(t, p, e);
      ComputedKeepsHistory(t, p, e);
      ComputedKeepsWant(t, p, e);
      ComputedKeepsRides(t, p, e);
    }
  }

  lemma {:induction false} RunKeepsInv(t: Trace, p: Parameters, events: seq<Event>)
    requires Inv(t, p) && AllTimely(t, p, events)
    ensures Inv(Run(t, p, events), p)
    decreases |events|
  {
    if |events| != 0 {
      NextKeepsInv(t, p, events[0]);
      RunKeepsInv(Next(t, p, events[0]), p, events[1..]);
    }
  }

  // ----- The latch ------------------------------------------------------------------------------

  /** A computed update after which no turn of the crank is more recent than the re-arm time. */
  predicate FindsPedalsStill(t: Trace, p: Parameters, e: Event) {
    && e.Update? && Computed(t.s, e.now)
    && forall k :: 0 <= k < |Next(t, p, e).pedalled| ==> e.now - Next(t, p, e).pedalled[k] >= p.rearmStill
  }

  /** Exactly when the latch is set: by an inhibit, and by a fault while the drive is wanted or was engaged. */
  predicate Latches(t: Trace, p: Parameters, e: Event) {
    match e
    case Inhibit => true
    case Configure => false
    case Update(now, i, v) =>
      && Computed(t.s, now) && v.faulted
      && (t.s.e.wanting || t.s.e.wasEngaged || Want(AfterDisplay(t.s.display, p, now, i.requests), i.pedaling))
  }

  /** One step, both ways: the latch is set by its causes, and only still pedals or new parameters clear it. */
  lemma LatchStep(t: Trace, p: Parameters, e: Event)
    requires Inv(t, p) && Timely(t, e)
    ensures var n := Next(t, p, e);
            && n.s.e.latched == ((t.s.e.latched || Latches(t, p, e)) && !e.Configure? && !FindsPedalsStill(t, p, e))
            && (n.s.e.latched ==> n.engages == t.engages)
            && (n.s.e.latched && e.Update? && Computed(t.s, e.now) ==> !n.s.output.engage && !n.s.e.wanting)
  {
    if e.Update? && Computed(t.s, e.now) {
      LatchedUpdate(t, p, e);
      ComputedKeepsPedalled(t, p, e);
      StillMeansNewest(Next(t, p, e), p, e.now);
    }
  }

  lemma LatchedUpdate(t: Trace, p: Parameters, e: Event)
    requires Inv(t, p) && Timely(t, e) && e.Update? && Computed(t.s, e.now)
    ensures var n := Next(t, p, e);
            && n.s.e.latched == ((t.s.e.latched || Latches(t, p, e)) && e.now - n.s.e.stillSince < p.rearmStill)
            && (n.s.e.latched ==> n.engages == t.engages && !n.s.output.engage && !n.s.e.wanting)
            && n.s.started && n.s.e.stillSince <= e.now
  {
  }

  lemma StillMeansNewest(n: Trace, p: Parameters, now: int)
    requires NewestIs(n.pedalled, n.s.e.stillSince)
    ensures now - n.s.e.stillSince >= p.rearmStill
            <==> forall k :: 0 <= k < |n.pedalled| ==> now - n.pedalled[k] >= p.rearmStill
  {
    assert n.pedalled[|n.pedalled| - 1] == n.s.e.stillSince;
  }

  /**
   A fault of a drive that the update before saw engaged latches, wanted or not, exactly while the pedals have
   not stood still for the re-arm time.
   */
  lemma FaultOfEngagedDriveLatches(s: State, p: Parameters, first: Event, second: Event)
    requires first.Update? && second.Update? && first.vehicle.engaged && second.vehicle.faulted
    requires s.started && Computed(s, first.now) && 0 <= s.e.stillSince <= first.now <= second.now < CLOCK_WRAP
    requires second.now - first.now >= STEP_MICROS
    ensures var u := AfterUpdate(s, p, first.now, first.sensed, first.vehicle);
            var n := AfterUpdate(u, p, second.now, second.sensed, second.vehicle);
            var still := if second.sensed.pedaling then second.now
                         else if first.sensed.pedaling then first.now else s.e.stillSince;
            && (n.e.latched <==> second.now - still < p.rearmStill)
            && (n.e.latched ==> !n.output.engage)
  {
    var u := AfterUpdate(s, p, first.now, first.sensed, first.vehicle);
    assert u.started && u.lastUpdate == first.now && u.e.wasEngaged;
    assert u.e.stillSince == if first.sensed.pedaling then first.now else s.e.stillSince;
  }

  /** No event of the run finds the pedals still or brings new parameters. */
  predicate NeverStill(t: Trace, p: Parameters, events: seq<Event>)
    decreases |events|
  {
    |events| == 0 ||
    (!events[0].Configure? && !FindsPedalsStill(t, p, events[0]) && NeverStill(Next(t, p, events[0]), p, events[1..]))
  }

  /** Once latched, no computed update asks for the drive until one finds the pedals still for the re-arm time. */
  lemma {:induction false} LatchHolds(t: Trace, p: Parameters, events: seq<Event>)
    requires Inv(t, p) && AllTimely(t, p, events) && t.s.e.latched && NeverStill(t, p, events)
    ensures var e := Run(t, p, events);
            e.s.e.latched && e.engages == t.engages
    decreases |events|
  {
    if |events| != 0 {
      NextKeepsInv(t, p, events[0]);
      LatchStep(t, p, events[0]);
      LatchHolds(Next(t, p, events[0]), p, events[1..]);
    }
  }

  predicate LatchedThroughout(t: Trace, p: Parameters, events: seq<Event>)
    decreases |events|
  {
    t.s.e.latched && (|events| == 0 || LatchedThroughout(Next(t, p, events[0]), p, events[1..]))
  }

  /** Over every run, both ways: only still pedals and new parameters ever end a latch. */
  lemma {:induction false} LatchEndsIff(t: Trace, p: Parameters, events: seq<Event>)
    requires Inv(t, p) && AllTimely(t, p, events) && t.s.e.latched
    ensures LatchedThroughout(t, p, events) <==> NeverStill(t, p, events)
    decreases |events|
  {
    if |events| != 0 {
      NextKeepsInv(t, p, events[0]);
      LatchStep(t, p, events[0]);
      if Next(t, p, events[0]).s.e.latched {
        LatchEndsIff(Next(t, p, events[0]), p, events[1..]);
      }
    }
  }

  /** From the start of operation: after a fault seen while wanted or engaged, or an inhibit. */
  lemma NoEngagementAfterFault(t: Trace, p: Parameters, before: seq<Event>, cause: Event, after: seq<Event>)
    requires Initial(t) && AllTimely(t, p, before + [cause] + after)
    requires var c := Run(t, p, before);
             && !cause.Configure? && Latches(c, p, cause) && !FindsPedalsStill(c, p, cause)
             && NeverStill(Next(c, p, cause), p, after)
    ensures Run(t, p, before + [cause] + after).engages == Run(t, p, before).engages
  {
    assert before + [cause] + after == before + ([cause] + after);
    RunSplits(t, p, before, [cause] + after);
    RunKeepsInv(t, p, before);
    var c := Run(t, p, before);
    assert ([cause] + after)[0] == cause && ([cause] + after)[1..] == after;
    NextKeepsInv(c, p, cause);
    LatchStep(c, p, cause);
    LatchHolds(Next(c, p, cause), p, after);
  }

  lemma {:induction false} RunSplits(t: Trace, p: Parameters, first: seq<Event>, second: seq<Event>)
    ensures Run(t, p, first + second) == Run(Run(t, p, first), p, second)
    ensures AllTimely(t, p, first + second) <==> AllTimely(t, p, first) && AllTimely(Run(t, p, first), p, second)
    decreases |first|
  {
    if |first| == 0 {
      assert first + second == second;
    } else {
      assert (first + second)[0] == first[0] && (first + second)[1..] == first[1..] + second;
      RunSplits(Next(t, p, first[0]), p, first[1..], second);
    }
  }

  // ----- Riding -------------------------------------------------------------------------------------

  /** Ridden at `now`, or within the hold before it, with no latch and no new parameters since. */
  predicate RiddenLately(rides: seq<int>, p: Parameters, now: int) {
    |rides| > 0 && (rides[|rides| - 1] == now || now < rides[|rides| - 1] + p.engageHold)
  }

  /** Over every run, both ways: a computed update asks for the drive exactly when it was ridden lately. */
  lemma EngagesIffRiddenLately(t: Trace, p: Parameters, events: seq<Event>, e: Event)
    requires Initial(t) && AllTimely(t, p, events) && Timely(Run(t, p, events), e)
    requires e.Update? && Computed(Run(t, p, events).s, e.now)
    ensures var n := Next(Run(t, p, events), p, e);
            n.s.output.engage <==> RiddenLately(n.rides, p, e.now)
  {
    RunKeepsInv(t, p, events);
    EngagesIff(Run(t, p, events), p, e);
  }

  lemma EngagesIff(t: Trace, p: Parameters, e: Event)
    requires Inv(t, p) && Timely(t, e) && e.Update? && Computed(t.s, e.now)
    ensures var n := Next(t, p, e);
            n.s.output.engage <==> RiddenLately(n.rides, p, e.now)
  {
    ComputedKeepsRides(t, p, e);
    LatestUpdate(t, p, e);
  }

  lemma LatestUpdate(t: Trace, p: Parameters, e: Event)
    requires Inv(t, p) && Timely(t, e) && e.Update? && Computed(t.s, e.now)
    ensures var n := Next(t, p, e).s;
            && n.lastUpdate == e.now && (n.output.engage <==> n.e.wanting)
            && (n.e.wanting ==> n.e.lastWant == e.now || e.now - n.e.lastWant < p.engageHold)
  {
  }

  // ----- Losing the display ------------------------------------------------------------------------

  /** A computed update asks for the drive only within the display timeout and the hold after the newest request. */
  lemma EngageNeedsRecentRequest(t: Trace, p: Parameters, events: seq<Event>, e: Event)
    requires Initial(t) && AllTimely(t, p, events) && Timely(Run(t, p, events), e)
    requires e.Update? && Computed(Run(t, p, events).s, e.now)
    ensures var n := Next(Run(t, p, events), p, e);
            n.s.output.engage ==>
              n.requested != [] && e.now < n.requested[|n.requested| - 1] + p.displayTimeout + p.engageHold
  {
    RunKeepsInv(t, p, events);
    EngageNeedsRequest(Run(t, p, events), p, e);
  }

  lemma EngageNeedsRequest(t: Trace, p: Parameters, e: Event)
    requires Inv(t, p) && Timely(t, e) && e.Update? && Computed(t.s, e.now)
    ensures var n := Next(t, p, e);
            n.s.output.engage ==>
              n.requested != [] && e.now < n.requested[|n.requested| - 1] + p.displayTimeout + p.engageHold
  {
    ComputedKeepsHistory(t, p, e);
    ComputedKeepsWant(t, p, e);
  }

  // ----- The control as an object ----------------------------------------------------------------------

  class Control {
    var parameters: Parameters
    var started: bool
    var lastUpdate: int
    var displayAlive: bool
    var level: nat
    var lastRequest: int
    var wanting: bool
    var lastWant: int
    var latched: bool
    var stillSince: int
    var wasEngaged: bool
    var output: Output

    function ViewDisplay(): (n: Display)
      reads this
    {
      Display(displayAlive, level, lastRequest)
    }

    function ViewEngagement(): (n: Engagement)
      reads this
    {
      Engagement(wanting, lastWant, latched, stillSince, wasEngaged)
    }

    function View(): (n: State)
      reads this
    {
      State(started, lastUpdate, ViewDisplay(), ViewEngagement(), output)
    }

    constructor (p: Parameters)
      ensures parameters == p && InitialState(View())
    {
      parameters := p;
      started, lastUpdate, displayAlive, level, lastRequest := false, 0, false, 0, 0;
      wanting, lastWant, latched, stillSince, wasEngaged := false, 0, false, 0, false;
      output := Output(false, 0.0);
    }

    method Configure(p: Parameters)
      modifies `parameters, `wanting, `latched, `output
      ensures parameters == p && View() == AfterConfigure(old(View()))
      ensures !wanting && !latched && output == Output(false, 0.0)
    {
      parameters := p;
      wanting, latched, output := false, false, Output(false, 0.0);
    }

    method Inhibit()
      modifies `latched, `wanting
      ensures View() == AfterInhibit(old(View()))
    {
      latched := true;
      wanting := false;
    }

    method ServiceDisplay(now: int, requests: seq<nat>)
      modifies `level, `lastRequest, `displayAlive
      ensures ViewDisplay() == AfterDisplay(old(ViewDisplay()), parameters, now, requests)
    {
      for i := 0 to |requests|
        invariant ViewDisplay() == if i == 0 then old(ViewDisplay()) else Display(true, requests[i - 1], now)
      {
        level := requests[i];
        lastRequest := now;
        displayAlive := true;
      }
      if displayAlive && Elapsed(now, lastRequest) >= parameters.displayTimeout {
        displayAlive := false;
      }
    }

    /** The latch: set by a fault while the drive is wanted or was engaged, cleared by still pedals. */
    method Latch(now: int, pedaling: bool, want: bool, v: Vehicle)
      modifies `stillSince, `latched
      ensures ViewEngagement() == AfterLatch(old(ViewEngagement()), parameters, now, pedaling, want, v)
    {
      if pedaling {
        stillSince := now;
      }
      if v.faulted && (wanting || wasEngaged || want) {
        latched := true;
      }
      if latched && Elapsed(now, stillSince) >= parameters.rearmStill {
        latched := false;
      }
    }

    /** The hold: the drive stays wanted for a while after the last want. */
    method Hold(now: int, want: bool)
      modifies `wanting, `lastWant
      ensures ViewEngagement() == AfterWant(old(ViewEngagement()), parameters, now, want)
    {
      if want && !latched {
        wanting := true;
        lastWant := now;
      } else if wanting && (latched || Elapsed(now, lastWant) >= parameters.engageHold) {
        wanting := false;
      }
    }

    method Compute(now: int, i: Sensed, v: Vehicle)
      requires started && lastUpdate == now
      modifies `level, `lastRequest, `displayAlive, `stillSince, `latched, `wanting, `lastWant, `wasEngaged, `output
      ensures var d := AfterDisplay(old(ViewDisplay()), parameters, now, i.requests);
              var want := Want(d, i.pedaling);
              var l := AfterLatch(old(ViewEngagement()), parameters, now, i.pedaling, want, v);
              var e := AfterWant(l, parameters, now, want);
              && ViewDisplay() == d && ViewEngagement() == e.(wasEngaged := v.engaged)
              && output == Output(e.wanting && !e.latched, i.torque)
    {
      ServiceDisplay(now, i.requests);
      var want := displayAlive && level > 0 && i.pedaling;
      assert want == Want(ViewDisplay(), i.pedaling) && ViewEngagement() == old(ViewEngagement());
      Latch(now, i.pedaling, want, v);
      Hold(now, want);
      wasEngaged := v.engaged;
      output := Output(wanting && !latched, i.torque);
    }

    method Update(now: int, i: Sensed, v: Vehicle) returns (result: Output)
      modifies this
      ensures View() == AfterUpdate(old(View()), old(parameters), now, i, v) && parameters == old(parameters)
      ensures result == output
      ensures if Computed(old(View()), now) then result.torque == i.torque else result == old(output)
    {
      if started && Elapsed(now, lastUpdate) < STEP_MICROS {
        return output;
      }
      ghost var was := View();
      if !started {
        started := true;
        stillSince := now;
      }
      lastUpdate := now;
      assert ViewDisplay() == was.display;
      assert ViewEngagement() == if was.started then was.e else was.e.(stillSince := now);
      Compute(now, i, v);
      assert Computed(was, now) && View().started && View().lastUpdate == now;
      return output;
    }
  }
}
