/**
 Settings of a running drive: register writes change the live settings; the controller takes them
 by a restart while the outputs are off, or, while engaged, by handing over the tunable ones.

 A register value is its encoding. `writes` is the unwrapped 32-bit count of accepted writes.
 */
module LiveTuning {
  import opened Units

  /** The tunable registers, the other ones that the drive node itself reads, and all others. */
  datatype Name =
    | CurrentKpD | CurrentKiD | CurrentKpQ | CurrentKiQ
    | SpeedKp | SpeedKi | SpeedAccelLimit
    | PosKp | PosSpeedLimit | PosAccelLimit | PosPosTol | PosSpeedTol
    | TelemetryRate | CommandTimeout | CartStatusRate | CartTorqueRamp | CartLimpHomeTorque | CartStandstillSpeed
    | CartWheel | CartReversed | CartTimeout | CartBatteryShare | MotorIMax | FluxPm | PolePairs
    | Other(index: nat)

  type Registers = map<Name, int>

  /** Registers whose effect is immediate. */
  predicate Tunable(n: Name) {
    n.CurrentKpD? || n.CurrentKiD? || n.CurrentKpQ? || n.CurrentKiQ?
    || n.SpeedKp? || n.SpeedKi? || n.SpeedAccelLimit?
    || n.PosKp? || n.PosSpeedLimit? || n.PosAccelLimit? || n.PosPosTol? || n.PosSpeedTol?
    || n.TelemetryRate? || n.CommandTimeout? || n.CartStatusRate?
    || n.CartTorqueRamp? || n.CartLimpHomeTorque? || n.CartStandstillSpeed?
  }

  // ----- The three ways into the running loops ---------------------------------------------

  const CURRENT_GAINS := {CurrentKpD, CurrentKiD, CurrentKpQ, CurrentKiQ}

  const OUTER_GAINS := {SpeedKp, SpeedKi, SpeedAccelLimit, PosKp, PosSpeedLimit, PosAccelLimit, PosPosTol, PosSpeedTol}

  /** What LoadParameters() reads (while engaged it leaves the e-bike alone). */
  const NODE_PARAMETERS := {CommandTimeout, TelemetryRate, CartStatusRate, CartWheel, CartReversed, CartTimeout,
                            CartTorqueRamp, CartLimpHomeTorque, CartStandstillSpeed, CartBatteryShare,
                            MotorIMax, FluxPm, PolePairs}

  /** The values in force after the registers `names` were handed over. */
  function HandedOver(inForce: Registers, live: Registers, names: set<Name>): (r: Registers) {
    map n | n in inForce :: if n in names && n in live then live[n] else inForce[n]
  }

  // ----- Comparing with what runs ------------------------------------------------------------

  function CopyTunable(source: Registers, target: Registers): (r: Registers)
    ensures r.Keys == target.Keys
  {
    map n | n in target :: if Tunable(n) && n in source then source[n] else target[n]
  }

  /** The first register of the table in which `untuned` differs from `applied`. */
  function FirstDifference(table: seq<Name>, applied: Registers, untuned: Registers): (r: Option<Name>)
    ensures r.None? <==> forall n :: n in table && n in applied && n in untuned ==> applied[n] == untuned[n]
    ensures r.Some? ==>
              r.value in table && r.value in applied && r.value in untuned && applied[r.value] != untuned[r.value]
  {
    if |table| == 0 then None
    else
      var n := table[0];
      if n in applied && n in untuned && applied[n] != untuned[n] then Some(n)
      else FirstDifference(table[1..], applied, untuned)
  }

  function FirstUntunableChange(table: seq<Name>, applied: Registers, live: Registers): (r: Option<Name>) {
    FirstDifference(table, applied, CopyTunable(applied, live))
  }

  predicate SameUntunable(a: Registers, b: Registers) {
    a.Keys == b.Keys && forall n :: n in a && !Tunable(n) ==> a[n] == b[n]
  }

  predicate Covers(table: seq<Name>, r: Registers) {
    (forall n :: n in r ==> n in table) && (forall i :: 0 <= i < |table| ==> table[i] in r)
  }

  lemma UntunableChangeIsFound(table: seq<Name>, applied: Registers, live: Registers)
    requires Covers(table, applied) && applied.Keys == live.Keys
    ensures FirstUntunableChange(table, applied, live).None? <==> SameUntunable(applied, live)
    ensures FirstUntunableChange(table, applied, live).Some? ==>
              var n := FirstUntunableChange(table, applied, live).value;
              n in live && !Tunable(n) && applied[n] != live[n]
  {
    var untuned := CopyTunable(applied, live);
    forall n | n in applied
      ensures applied[n] == untuned[n] <==> Tunable(n) || applied[n] == live[n]
    {
    }
  }

  // ----- State and operations --------------------------------------------------------------------

  datatype Settings = Settings(table: seq<Name>, live: Registers, applied: Registers, inForce: Registers,
                               writes: nat, appliedWrites: nat, checkedWrites: nat,
                               pending: bool, waiting: bool)

  /** An accepted register write; a refused one changes nothing. */
  function Written(s: Settings, n: Name, v: int): (r: Settings) {
    if n in s.live then s.(live := s.live[n := v], writes := s.writes + 1) else s
  }

  function FactoryReset(s: Settings, factory: Registers): (r: Settings) {
    if factory.Keys == s.live.Keys then s.(live := factory, pending := true) else s
  }

  /** The restart in ApplySettings(). */
  function Restarted(s: Settings): (r: Settings) {
    s.(applied := s.live, inForce := s.live, appliedWrites := s.writes, checkedWrites := s.writes, pending := false)
  }

  function Tuned(s: Settings): (r: Settings) {
    var c := s.(checkedWrites := s.writes);
    if FirstUntunableChange(s.table, s.applied, s.live).Some? then c.(pending := true)
    else
      var current := HandedOver(s.inForce, s.live, CURRENT_GAINS);
      var outer := HandedOver(current, s.live, OUTER_GAINS);
      var node := HandedOver(outer, s.live, NODE_PARAMETERS);
      c.(inForce := node, applied := s.live, appliedWrites := s.writes)
  }

  predicate HasUnappliedWrites(s: Settings) { s.writes != s.appliedWrites }

  /** End of Spin(): what `unimoc.settings.pending` reports. */
  function Reported(s: Settings): (r: Settings) { s.(waiting := s.pending || HasUnappliedWrites(s)) }

  predicate Inv(s: Settings) {
    && Covers(s.table, s.live) && s.live.Keys == s.applied.Keys
    && s.inForce == s.applied
    && s.appliedWrites <= s.checkedWrites <= s.writes
    && (!s.pending && !HasUnappliedWrites(s) ==> s.applied == s.live)
  }

  /** Initially and after a restart. */
  lemma RestartedInv(s: Settings)
    requires Covers(s.table, s.live)
    ensures Inv(Restarted(s)) && Restarted(s).applied == s.live
  {
  }

  lemma WrittenKeepsInv(s: Settings, n: Name, v: int)
    requires Inv(s)
    ensures Inv(Written(s, n, v))
  {
    assert n in s.live ==> s.live[n := v].Keys == s.live.Keys;
  }

  lemma FactoryResetKeepsInv(s: Settings, factory: Registers)
    requires Inv(s)
    ensures Inv(FactoryReset(s, factory))
  {
  }

  /** Every tunable register has its way into the running loops. */
  lemma TunableIsHandedOver(n: Name)
    ensures Tunable(n) ==> n in CURRENT_GAINS || n in OUTER_GAINS || n in NODE_PARAMETERS
  {
  }

  /**
   Live tuning succeeds exactly when no other register differs from what runs; then every loop runs
   with the value that a restart with the live settings would load. Otherwise nothing in force changes.
   */
  lemma TunedLikeRestarted(s: Settings)
    requires Inv(s)
    ensures Inv(Tuned(s))
    ensures SameUntunable(s.applied, s.live) ==>
              Tuned(s).inForce == Restarted(s).inForce && Tuned(s).applied == s.live && !HasUnappliedWrites(Tuned(s))
    ensures !SameUntunable(s.applied, s.live) ==>
              Tuned(s).inForce == s.inForce && Tuned(s).applied == s.applied && Tuned(s).pending
    ensures SameUntunable(s.applied, Tuned(s).applied)
  {
    UntunableChangeIsFound(s.table, s.applied, s.live);
    if SameUntunable(s.applied, s.live) {
      var t := Tuned(s).inForce;
      forall n | n in s.live
        ensures n in t && t[n] == s.live[n]
      {
        TunableIsHandedOver(n);
      }
      assert t == s.live;
    }
  }

  /** The reported flag: when it is clear, the controller runs with the live settings. */
  lemma NotWaitingMeansApplied(s: Settings)
    requires Inv(s)
    ensures !Reported(s).waiting ==> s.applied == s.live == s.inForce
  {
  }
}
