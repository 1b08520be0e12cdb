/**
 Live settings, their flash storage and the shadow of what the storage holds.

 The storage has one entry per register that differs from the factory profile. A save writes
 only what changed, erases what is back at its factory value, and may stop half way.
 */
module SettingsPersistence {
  import opened RegisterCodec

  type Settings = seq<Value>

  /** Register `i` of the table, or an entry this firmware does not know. */
  datatype Key = Register(i: nat) | Unknown(name: string)

  type Flash = map<Key, seq<Byte>>

  datatype StorageStatus = StorageSuccess | NotFound | Unavailable | IoError

  datatype Status =
    | Success | FactoryDefaults | InvalidImage | InvalidSettings | OutOfRange
    | StorageUnavailable | StorageError | PersistBlocked

  function ToStatus(s: StorageStatus): (r: Status) {
    match s
    case StorageSuccess => Success
    case NotFound => Success
    case Unavailable => StorageUnavailable
    case IoError => StorageError
  }

  /**
   The target profile. `validProfile` is IsValidProfile(), `validate` the range checks of
   Validate(): they look at what the registers are stored as, never behind the end of a name.
   */
  datatype Profile = Profile(factory: Settings, validProfile: bool, validate: seq<seq<Byte>> -> Status)
  {
    predicate Fits(s: Settings) {
      |s| == |factory| && forall i :: 0 <= i < |s| ==> s[i].Kind() == factory[i].Kind()
    }

    function Validate(s: Settings): (r: Status) { validate(Encoded(s)) }
  }

  function Encoded(s: Settings): (r: seq<seq<Byte>>)
    ensures |r| == |s|
  {
    seq(|s|, i requires 0 <= i < |s| => Encode(s[i]))
  }

  predicate AllSameEncoding(a: Settings, b: Settings) {
    |a| == |b| && forall i :: 0 <= i < |a| ==> SameEncoding(a[i], b[i])
  }

  /** SettingsStore and the storage behind it. */
  datatype Store = Store(live: Settings, stored: Settings, eraseDefaults: bool, flash: Flash)

  predicate Typed(p: Profile, st: Store) { p.Fits(st.live) && p.Fits(st.stored) }

  // ----- Load ----------------------------------------------------------------------

  predicate IsUndecodable(p: Profile, flash: Flash, i: nat)
    requires i < |p.factory|
  {
    Register(i) in flash && Decode(p.factory[i].Kind(), flash[Register(i)]).Undecodable?
  }

  /** Register `i` as the storage has it: its entry, or the factory value without a usable one. */
  function LoadedValue(p: Profile, flash: Flash, i: nat): (v: Value)
    requires i < |p.factory|
    ensures v.Kind() == p.factory[i].Kind()
  {
    if Register(i) !in flash then p.factory[i]
    else
      match Decode(p.factory[i].Kind(), flash[Register(i)])
      case Undecodable => p.factory[i]
      case Decoded(v) => v
  }

  function Loaded(p: Profile, flash: Flash): (s: Settings)
    ensures p.Fits(s)
  {
    seq(|p.factory|, i requires 0 <= i < |p.factory| => LoadedValue(p, flash, i))
  }

  ghost predicate AnyUndecodable(p: Profile, flash: Flash) {
    exists i :: 0 <= i < |p.factory| && IsUndecodable(p, flash, i)
  }

  ghost predicate AnyStored(p: Profile, flash: Flash) {
    exists i :: 0 <= i < |p.factory| && Register(i) in flash
  }

  /** Load() when the enumeration of the storage ends with `storage`. */
  ghost function LoadOutcome(p: Profile, st: Store, storage: StorageStatus): (r: (Store, Status))
    ensures p.validProfile ==> Typed(p, r.0)
  {
    if !p.validProfile then (st, InvalidSettings)
    else if ToStatus(storage) != Success then
      (Store(p.factory, p.factory, false, st.flash), ToStatus(storage))
    else
      var loaded := Loaded(p, st.flash);
      var undecodable := AnyUndecodable(p, st.flash);
      var validation := if undecodable then InvalidImage else p.Validate(loaded);
      if validation != Success then
        (Store(p.factory, loaded, undecodable, st.flash), validation)
      else
        (Store(loaded, loaded, undecodable, st.flash),
         if AnyStored(p, st.flash) then Success else FactoryDefaults)
  }

  /**
   What the status of a load says: the registers of the storage are live exactly with Success (some are
   stored) and FactoryDefaults (none is); any other status is the cause of the fallback to the profile.
   */
  ghost predicate LoadReports(p: Profile, st: Store, storage: StorageStatus, status: Status) {
    var (failed, loaded) := (storage == Unavailable || storage == IoError, Loaded(p, st.flash));
    var usable := !failed && !AnyUndecodable(p, st.flash) && p.Validate(loaded) == Success;
    && (usable ==> status == if AnyStored(p, st.flash) then Success else FactoryDefaults)
    && (!usable ==> status != Success)
    && st.live == (if usable then loaded else p.factory)
    && st.stored == (if failed then p.factory else loaded)
    && (st.eraseDefaults <==> !failed && AnyUndecodable(p, st.flash))
    && (storage == Unavailable ==> status == StorageUnavailable) && (storage == IoError ==> status == StorageError)
    && (!failed && AnyUndecodable(p, st.flash) ==> status == InvalidImage)
    && (!failed && !AnyUndecodable(p, st.flash) && !usable ==> status == p.Validate(loaded))
  }

  lemma LoadOutcomeReports(p: Profile, st: Store, storage: StorageStatus)
    requires p.validProfile
    ensures var (r, status) := LoadOutcome(p, st, storage);
            r.flash == st.flash && LoadReports(p, r, storage, status)
  {
  }

  // ----- Update and save -------------------------------------------------------------

  /** Update() with the candidate its operation made, and ResetToFactoryDefaults(). */
  function CommitOutcome(p: Profile, st: Store, candidate: Settings): (r: (Store, Status)) {
    var validation := p.Validate(candidate);
    (if validation == Success then st.(live := candidate) else st, validation)
  }

  datatype SaveEvent = GateBegin(granted: bool) | Write(i: nat) | Erase(i: nat) | GateEnd
  {
    predicate TouchesStorage() { Write? || Erase? }
  }

  /** The turn of a register in a save: whether something is due, the operation for it, and what the storage says. */
  datatype Turn = Turn(due: bool, erases: bool, image: seq<Byte>, value: Value, outcome: Status)

  function TurnOf(p: Profile, st: Store, i: nat, outcome: StorageStatus): (r: Turn)
    requires Typed(p, st) && i < |p.factory|
  {
    var atFactory := SameEncoding(st.live[i], p.factory[i]);
    var changed := !SameEncoding(st.live[i], st.stored[i]);
    Turn(changed || (st.eraseDefaults && atFactory), atFactory, Encode(st.live[i]), st.live[i], ToStatus(outcome))
  }

  /** No turn changes anything of a later one, so all of them follow from the state before the save. */
  function Turns(p: Profile, st: Store, outcomes: seq<StorageStatus>): (r: seq<Turn>)
    requires Typed(p, st) && |p.factory| == |outcomes|
    ensures |r| == |p.factory|
  {
    seq(|p.factory|, i requires 0 <= i < |p.factory| => TurnOf(p, st, i, outcomes[i]))
  }

  /** A turn depends on what belongs to its register only. */
  lemma SameTurn(p: Profile, st: Store, now: Store, i: nat, outcome: StorageStatus)
    requires Typed(p, st) && Typed(p, now) && i < |p.factory| && now.live == st.live
    requires now.stored[i] == st.stored[i] && now.eraseDefaults == st.eraseDefaults
    ensures TurnOf(p, now, i, outcome) == TurnOf(p, st, i, outcome)
  {
  }

  /** One storage operation of a save; a failed one leaves the storage as it is. */
  function SaveRegister(st: Store, i: nat, t: Turn): (n: Store)
    requires i < |st.stored|
  {
    if t.outcome != Success then st
    else
      var flash := if t.erases then st.flash - {Register(i)} else st.flash[Register(i) := t.image];
      st.(flash := flash, stored := st.stored[i := t.value])
  }

  /** SaveChanged() under way: `held` is its `saving`, the gate is held. */
  datatype Saving = Saving(st: Store, status: Status, held: bool, trace: seq<SaveEvent>)

  /** Register `i`; `gate`: the gate would be granted. */
  function SaveStep(s: Saving, i: nat, t: Turn, gate: bool): (r: Saving)
    requires i < |s.st.stored|
  {
    if s.status != Success || !t.due then s
    else if !s.held && !gate then Saving(s.st, PersistBlocked, false, s.trace + [GateBegin(false)])
    else
      var begun := if s.held then s.trace else s.trace + [GateBegin(true)];
      Saving(SaveRegister(s.st, i, t), t.outcome, true, begun + [if t.erases then Erase(i) else Write(i)])
  }

  /** The registers of these turns. */
  function SaveUpTo(st: Store, turns: seq<Turn>, gate: bool): (r: Saving)
    requires |turns| <= |st.stored|
    ensures |r.st.stored| == |st.stored| && r.st.live == st.live && r.st.eraseDefaults == st.eraseDefaults
  {
    if |turns| == 0 then Saving(st, Success, false, [])
    else SaveStep(SaveUpTo(st, turns[..|turns| - 1], gate), |turns| - 1, turns[|turns| - 1], gate)
  }

  lemma OneMoreTurn(st: Store, turns: seq<Turn>, i: nat, gate: bool, s: Saving, r: Saving)
    requires i < |turns| <= |st.stored| && s == SaveUpTo(st, turns[..i], gate) && r == SaveStep(s, i, turns[i], gate)
    ensures r == SaveUpTo(st, turns[..i + 1], gate) && r.st.live == st.live && r.st.eraseDefaults == st.eraseDefaults
    ensures |r.st.stored| == |st.stored|
    ensures forall m :: 0 <= m < |st.stored| && m != i ==> r.st.stored[m] == s.st.stored[m]
    ensures r.st.stored[i] == s.st.stored[i] || r.st.stored[i] == turns[i].value
  {
    assert turns[..i + 1][..i] == turns[..i];
  }

  datatype SaveResult = SaveResult(st: Store, status: Status, trace: seq<SaveEvent>)

  /** SaveChanged(). */
  function SaveOutcome(p: Profile, st: Store, gate: bool, outcomes: seq<StorageStatus>): (r: SaveResult)
    requires Typed(p, st) && |outcomes| == |p.factory|
  {
    var s := SaveUpTo(st, Turns(p, st, outcomes), gate);
    SaveResult(if s.status == Success then s.st.(eraseDefaults := false) else s.st,
               s.status,
               if s.held then s.trace + [GateEnd] else s.trace)
  }

  // ----- What the turns of a save leave ------------------------------------------------------

  predicate Fails(t: Turn, gate: bool) { t.due && !(gate && t.outcome == Success) }

  predicate NoneFails(turns: seq<Turn>, gate: bool) { forall i :: 0 <= i < |turns| ==> !Fails(turns[i], gate) }

  lemma NoneFailsSplits(turns: seq<Turn>, gate: bool)
    requires |turns| > 0
    ensures NoneFails(turns, gate)
            <==> NoneFails(turns[..|turns| - 1], gate) && !Fails(turns[|turns| - 1], gate)
  {
    assert turns == turns[..|turns| - 1] + [turns[|turns| - 1]];
  }

  lemma {:induction false} HeldIsGranted(st: Store, turns: seq<Turn>, gate: bool)
    requires |turns| <= |st.stored|
    ensures SaveUpTo(st, turns, gate).held ==> gate
  {
    if |turns| != 0 {
      HeldIsGranted(st, turns[..|turns| - 1], gate);
    }
  }

  lemma {:induction false} SuccessIffNoneFails(st: Store, turns: seq<Turn>, gate: bool)
    requires |turns| <= |st.stored|
    ensures SaveUpTo(st, turns, gate).status == Success <==> NoneFails(turns, gate)
  {
    if |turns| != 0 {
      SuccessIffNoneFails(st, turns[..|turns| - 1], gate);
      HeldIsGranted(st, turns[..|turns| - 1], gate);
      NoneFailsSplits(turns, gate);
    }
  }

  /** The first failure is the one that is reported. */
  lemma {:induction false} FirstFailureIsReported(st: Store, turns: seq<Turn>, gate: bool, f: nat)
    requires f < |turns| <= |st.stored| && NoneFails(turns[..f], gate) && Fails(turns[f], gate)
    ensures SaveUpTo(st, turns, gate).status == if gate then turns[f].outcome else PersistBlocked
    decreases |turns|
  {
    var init := turns[..|turns| - 1];
    HeldIsGranted(st, init, gate);
    if f == |turns| - 1 {
      SuccessIffNoneFails(st, init, gate);
    } else {
      assert init[..f] == turns[..f];
      FirstFailureIsReported(st, init, gate, f);
    }
  }

  predicate SameEntry(a: Flash, b: Flash, k: Key) {
    (k in a <==> k in b) && (k in a ==> a[k] == b[k])
  }

  /** What belongs to `k` is the same in both stores. */
  predicate SameElsewhere(st: Store, r: Store, k: Key) {
    && SameEntry(st.flash, r.flash, k) && |r.stored| == |st.stored|
    && (k.Register? && k.i < |st.stored| ==> r.stored[k.i] == st.stored[k.i])
  }

  /** Shadow and entry of register `j` after its operation. */
  predicate Performed(r: Store, t: Turn, j: nat) {
    && j < |r.stored| && r.stored[j] == t.value
    && if t.erases then Register(j) !in r.flash else Register(j) in r.flash && r.flash[Register(j)] == t.image
  }

  /** The operation for `k` was performed: it is one of the turns, due, and nothing failed up to it. */
  predicate IsPerformed(turns: seq<Turn>, gate: bool, k: Key) {
    k.Register? && k.i < |turns| && turns[k.i].due && NoneFails(turns[..k.i + 1], gate)
  }

  lemma StepAt(s: Saving, i: nat, t: Turn, gate: bool)
    requires i < |s.st.stored| && (s.held ==> gate)
    ensures var r := SaveStep(s, i, t, gate).st;
            if s.status == Success && t.due && !Fails(t, gate) then Performed(r, t, i) else r == s.st
  {
  }

  lemma StepElsewhere(s: Saving, i: nat, t: Turn, gate: bool, k: Key)
    requires i < |s.st.stored| && k != Register(i)
    ensures SameElsewhere(s.st, SaveStep(s, i, t, gate).st, k)
  {
  }

  /**
   What a save leaves of each entry, also one that fails somewhere: exactly the operations that are due and
   have no failure up to them are performed; all other entries, unknown ones included, are as they were.
   */
  lemma {:induction false} SavedEntry(st: Store, turns: seq<Turn>, gate: bool, k: Key)
    requires |turns| <= |st.stored|
    ensures var r := SaveUpTo(st, turns, gate).st;
            if IsPerformed(turns, gate, k) then Performed(r, turns[k.i], k.i) else SameElsewhere(st, r, k)
    decreases |turns|
  {
    if |turns| != 0 {
      var (init, last) := (|turns| - 1, turns[|turns| - 1]);
      var s := SaveUpTo(st, turns[..init], gate);
      SavedEntry(st, turns[..init], gate, k);
      if k == Register(init) {
        assert turns[..init + 1] == turns;
        HeldIsGranted(st, turns[..init], gate);
        SuccessIffNoneFails(st, turns[..init], gate);
        NoneFailsSplits(turns, gate);
        StepAt(s, init, last, gate);
      } else {
        StepElsewhere(s, init, last, gate, k);
        assert k.Register? && k.i < init ==> turns[..init][..k.i + 1] == turns[..k.i + 1];
      }
    }
  }

  // ----- The shadow ---------------------------------------------------------------------

  /** The shadow of register `i` matches its entry; an undecodable entry is due to be erased. */
  predicate Mirrored(p: Profile, st: Store, i: nat)
    requires Typed(p, st) && i < |p.factory|
  {
    && SameEncoding(st.stored[i], LoadedValue(p, st.flash, i))
    && (IsUndecodable(p, st.flash, i) ==> st.eraseDefaults)
  }

  ghost predicate Inv(p: Profile, st: Store) {
    && Typed(p, st)
    && (forall i :: 0 <= i < |p.factory| ==> Mirrored(p, st, i))
    && p.Validate(st.live) == Success
  }

  lemma SameEncodingSameValidation(p: Profile, a: Settings, b: Settings)
    requires AllSameEncoding(a, b)
    ensures p.Validate(a) == p.Validate(b)
  {
    assert Encoded(a) == Encoded(b);
  }

  lemma LoadEstablishesInv(p: Profile, st: Store, storage: StorageStatus)
    requires p.validProfile && p.Validate(p.factory) == Success && ToStatus(storage) == Success
    ensures Inv(p, LoadOutcome(p, st, storage).0)
  {
    var r := LoadOutcome(p, st, storage).0;
    forall i | 0 <= i < |p.factory|
      ensures Mirrored(p, r, i)
    {
      assert IsUndecodable(p, st.flash, i) ==> AnyUndecodable(p, st.flash);
    }
  }

  lemma CommitKeepsInv(p: Profile, st: Store, candidate: Settings)
    requires Inv(p, st) && p.Fits(candidate)
    ensures Inv(p, CommitOutcome(p, st, candidate).0)
  {
    var r := CommitOutcome(p, st, candidate).0;
    assert forall i :: 0 <= i < |p.factory| ==> Mirrored(p, st, i) ==> Mirrored(p, r, i);
  }

  /** Register `j` is stored as it is live. */
  predicate Saved(p: Profile, st: Store, j: nat)
    requires Typed(p, st) && j < |p.factory|
  {
    SameEncoding(st.stored[j], st.live[j]) && !IsUndecodable(p, st.flash, j)
  }

  /** An operation that is performed stores the register as it is live. */
  lemma PerformedMirrors(p: Profile, st: Store, r: Store, outcomes: seq<StorageStatus>, j: nat)
    requires Typed(p, st) && |outcomes| == |p.factory| && j < |p.factory| && Typed(p, r) && r.live == st.live
    requires Performed(r, TurnOf(p, st, j, outcomes[j]), j)
    ensures Mirrored(p, r, j) && Saved(p, r, j)
  {
    DecodeEncode(st.live[j]);
    CanonicalSameEncoding(st.live[j]);
  }

  /** A register that a save has nothing to do for is stored as it is live. */
  lemma NothingDue(p: Profile, st: Store, outcomes: seq<StorageStatus>, j: nat)
    requires Inv(p, st) && |outcomes| == |p.factory| && j < |p.factory| && !TurnOf(p, st, j, outcomes[j]).due
    ensures Saved(p, st, j)
  {
    assert Mirrored(p, st, j);
  }

  lemma SameMirrors(p: Profile, st: Store, r: Store, j: nat)
    requires Typed(p, st) && Typed(p, r) && j < |p.factory| && SameElsewhere(st, r, Register(j))
    requires r.live == st.live && r.eraseDefaults == st.eraseDefaults
    ensures Mirrored(p, st, j) ==> Mirrored(p, r, j)
    ensures Saved(p, st, j) ==> Saved(p, r, j)
  {
  }

  lemma NotPerformedMirrors(p: Profile, st: Store, r: Store, outcomes: seq<StorageStatus>, j: nat)
    requires Inv(p, st) && |outcomes| == |p.factory| && j < |p.factory| && Typed(p, r)
    requires SameElsewhere(st, r, Register(j)) && r.live == st.live && r.eraseDefaults == st.eraseDefaults
    ensures Mirrored(p, r, j) && (!TurnOf(p, st, j, outcomes[j]).due ==> Saved(p, r, j))
  {
    assert Mirrored(p, st, j);
    SameMirrors(p, st, r, j);
    if !TurnOf(p, st, j, outcomes[j]).due {
      NothingDue(p, st, outcomes, j);
    }
  }

  lemma SaveKeepsKind(p: Profile, st: Store, gate: bool, outcomes: seq<StorageStatus>, j: nat)
    requires Typed(p, st) && |outcomes| == |p.factory| && j < |p.factory|
    ensures SaveUpTo(st, Turns(p, st, outcomes), gate).st.stored[j].Kind() == p.factory[j].Kind()
  {
    SavedEntry(st, Turns(p, st, outcomes), gate, Register(j));
  }

  lemma SaveKeepsTyped(p: Profile, st: Store, gate: bool, outcomes: seq<StorageStatus>)
    requires Typed(p, st) && |outcomes| == |p.factory|
    ensures Typed(p, SaveUpTo(st, Turns(p, st, outcomes), gate).st)
  {
    forall j | 0 <= j < |p.factory|
      ensures SaveUpTo(st, Turns(p, st, outcomes), gate).st.stored[j].Kind() == p.factory[j].Kind()
    {
      SaveKeepsKind(p, st, gate, outcomes, j);
    }
  }

  lemma TurnLeaves(st: Store, turns: seq<Turn>, gate: bool, j: nat, reached: bool)
    requires j < |turns| <= |st.stored| && (reached <==> NoneFails(turns[..j + 1], gate))
    ensures var r := SaveUpTo(st, turns, gate).st;
            if reached && turns[j].due then Performed(r, turns[j], j) else SameElsewhere(st, r, Register(j))
  {
    SavedEntry(st, turns, gate, Register(j));
  }

  lemma TurnMirrors(p: Profile, st: Store, r: Store, outcomes: seq<StorageStatus>, j: nat, t: Turn, reached: bool)
    requires Inv(p, st) && |outcomes| == |p.factory| && j < |p.factory| && Typed(p, r)
    requires r.live == st.live && r.eraseDefaults == st.eraseDefaults && t == TurnOf(p, st, j, outcomes[j])
    requires if reached && t.due then Performed(r, t, j) else SameElsewhere(st, r, Register(j))
    ensures Mirrored(p, r, j) && (reached ==> Saved(p, r, j))
  {
    if reached && t.due {
      PerformedMirrors(p, st, r, outcomes, j);
    } else {
      NotPerformedMirrors(p, st, r, outcomes, j);
    }
  }

  /**
   Also when a save fails further on, what it saved before stays saved, and the shadow of every register still
   matches its entry.
   */
  lemma SaveUpToSaves(p: Profile, st: Store, gate: bool, outcomes: seq<StorageStatus>, j: nat)
    requires Inv(p, st) && |outcomes| == |p.factory| && j < |p.factory|
    ensures var (r, turns) := (SaveUpTo(st, Turns(p, st, outcomes), gate).st, Turns(p, st, outcomes));
            && Typed(p, r) && Mirrored(p, r, j)
            && (NoneFails(turns[..j + 1], gate) ==> Saved(p, r, j))
  {
    var turns := Turns(p, st, outcomes);
    var r := SaveUpTo(st, turns, gate).st;
    var reached := NoneFails(turns[..j + 1], gate);
    SaveKeepsTyped(p, st, gate, outcomes);
    TurnLeaves(st, turns, gate, j, reached);
    TurnMirrors(p, st, r, outcomes, j, turns[j], reached);
  }

  /** Also a save that fails or is refused keeps the shadow; the live settings never change. */
  lemma SaveKeepsInv(p: Profile, st: Store, gate: bool, outcomes: seq<StorageStatus>)
    requires Inv(p, st) && |outcomes| == |p.factory|
    ensures var r := SaveOutcome(p, st, gate, outcomes);
            && Inv(p, r.st) && r.st.live == st.live
            && (r.status == Success ==>
                  AllSameEncoding(r.st.stored, r.st.live) && !AnyUndecodable(p, r.st.flash) && !r.st.eraseDefaults)
  {
    var turns := Turns(p, st, outcomes);
    var s := SaveUpTo(st, turns, gate);
    SaveKeepsTyped(p, st, gate, outcomes);
    SuccessIffNoneFails(st, turns, gate);
    forall j | 0 <= j < |p.factory|
      ensures Mirrored(p, s.st, j) && (s.status == Success ==> Saved(p, s.st, j))
    {
      SaveUpToSaves(p, st, gate, outcomes, j);
    }
    if s.status == Success {
      SavedKeepsInv(p, s.st);
    }
  }

  /** With every register saved there is no undecodable entry left to repair. */
  lemma SavedKeepsInv(p: Profile, st: Store)
    requires Inv(p, st) && forall j :: 0 <= j < |p.factory| ==> Saved(p, st, j)
    ensures Inv(p, st.(eraseDefaults := false))
    ensures AllSameEncoding(st.stored, st.live) && !AnyUndecodable(p, st.flash)
  {
    var r := st.(eraseDefaults := false);
    forall j | 0 <= j < |p.factory|
      ensures Mirrored(p, r, j)
    {
      assert Mirrored(p, st, j) && Saved(p, st, j);
    }
    forall j | 0 <= j < |p.factory|
      ensures SameEncoding(st.stored[j], st.live[j]) && !IsUndecodable(p, st.flash, j)
    {
      assert Saved(p, st, j);
    }
  }

  // ----- Histories ------------------------------------------------------------------------

  datatype Op =
    | Update(candidate: Settings)
    | ResetToFactory
    | SaveToFlash(gate: bool, outcomes: seq<StorageStatus>)

  predicate OpFits(p: Profile, op: Op) {
    match op
    case Update(candidate) => p.Fits(candidate)
    case ResetToFactory => true
    case SaveToFlash(_, outcomes) => |outcomes| == |p.factory|
  }

  function Perform(p: Profile, st: Store, op: Op): (r: Store)
    requires Typed(p, st) && OpFits(p, op)
    ensures Typed(p, r)
  {
    match op
    case Update(candidate) => CommitOutcome(p, st, candidate).0
    case ResetToFactory => CommitOutcome(p, st, p.factory).0
    case SaveToFlash(gate, outcomes) => SaveKeepsTyped(p, st, gate, outcomes); SaveOutcome(p, st, gate, outcomes).st
  }

  function History(p: Profile, st: Store, ops: seq<Op>): (r: Store)
    requires Typed(p, st) && forall op :: op in ops ==> OpFits(p, op)
    ensures Typed(p, r)
    decreases |ops|
  {
    if |ops| == 0 then st
    else
      assert ops[0] in ops;
      History(p, Perform(p, st, ops[0]), ops[1..])
  }

  lemma {:induction false} HistoryKeepsInv(p: Profile, st: Store, ops: seq<Op>)
    requires Inv(p, st) && forall op :: op in ops ==> OpFits(p, op)
    ensures Inv(p, History(p, st, ops))
    decreases |ops|
  {
    if |ops| != 0 {
      assert OpFits(p, ops[0]);
      match ops[0] {
        case Update(candidate) => CommitKeepsInv(p, st, candidate);
        case ResetToFactory => CommitKeepsInv(p, st, p.factory);
        case SaveToFlash(gate, outcomes) => SaveKeepsInv(p, st, gate, outcomes);
      }
      HistoryKeepsInv(p, Perform(p, st, ops[0]), ops[1..]);
    }
  }

  /** What the newest accepted update or reset made live; `live` without any. */
  function NewestAccepted(p: Profile, ops: seq<Op>, live: Settings): (r: Settings) {
    if |ops| == 0 then live
    else
      var (init, last) := (ops[..|ops| - 1], ops[|ops| - 1]);
      if last.Update? && p.Validate(last.candidate) == Success then last.candidate
      else if last.ResetToFactory? && p.Validate(p.factory) == Success then p.factory
      else NewestAccepted(p, init, live)
  }

  lemma PerformedLive(p: Profile, st: Store, op: Op)
    requires Typed(p, st) && OpFits(p, op)
    ensures Perform(p, st, op).live == NewestAccepted(p, [op], st.live)
  {
    assert [op][..0] == [];
  }

  lemma {:induction false} NewestAcceptedOnward(p: Profile, first: Op, rest: seq<Op>, live: Settings)
    ensures NewestAccepted(p, [first] + rest, live) == NewestAccepted(p, rest, NewestAccepted(p, [first], live))
    decreases |rest|
  {
    var all := [first] + rest;
    if |rest| == 0 {
      assert all == [first];
    } else {
      assert all[..|all| - 1] == [first] + rest[..|rest| - 1];
      NewestAcceptedOnward(p, first, rest[..|rest| - 1], live);
    }
  }

  /** Over every history the live settings are those of the newest accepted update or reset, saves or not. */
  lemma {:induction false} LiveIsNewestAccepted(p: Profile, st: Store, ops: seq<Op>)
    requires Typed(p, st) && forall op :: op in ops ==> OpFits(p, op)
    ensures History(p, st, ops).live == NewestAccepted(p, ops, st.live)
    decreases |ops|
  {
    if |ops| != 0 {
      assert ops[0] in ops && ops == [ops[0]] + ops[1..];
      PerformedLive(p, st, ops[0]);
      NewestAcceptedOnward(p, ops[0], ops[1..], st.live);
      LiveIsNewestAccepted(p, Perform(p, st, ops[0]), ops[1..]);
    }
  }

  /** A storage that is saved gives the live settings back. */
  lemma ReloadRestores(p: Profile, st: Store, reboot: Store, storage: StorageStatus)
    requires Inv(p, st) && p.validProfile && ToStatus(storage) == Success
    requires AllSameEncoding(st.stored, st.live) && !AnyUndecodable(p, st.flash)
    requires reboot.flash == st.flash
    ensures var (again, status) := LoadOutcome(p, reboot, storage);
            && status in {Success, FactoryDefaults}
            && AllSameEncoding(again.live, st.live)
  {
    var loaded := Loaded(p, st.flash);
    forall i | 0 <= i < |p.factory|
      ensures SameEncoding(loaded[i], st.live[i])
    {
      assert Mirrored(p, st, i);
    }
    SameEncodingSameValidation(p, loaded, st.live);
  }

  /**
   After any history of updates, resets and partly failed saves that follows a load without a
   storage error, a save that reports success leaves a storage from which a fresh start
   restores the live settings.
   */
  lemma SaveThenLoadRestores(p: Profile, start: Store, storage: StorageStatus, ops: seq<Op>,
                             gate: bool, outcomes: seq<StorageStatus>, reboot: Store, again: StorageStatus)
    requires p.validProfile && p.Validate(p.factory) == Success
    requires ToStatus(storage) == Success && ToStatus(again) == Success
    requires (forall op :: op in ops ==> OpFits(p, op)) && |outcomes| == |p.factory|
    requires var r := SaveOutcome(p, History(p, LoadOutcome(p, start, storage).0, ops), gate, outcomes);
             r.status == Success && reboot.flash == r.st.flash
    ensures var st := History(p, LoadOutcome(p, start, storage).0, ops);
            var (loaded, status) := LoadOutcome(p, reboot, again);
            && status in {Success, FactoryDefaults}
            && AllSameEncoding(loaded.live, st.live)
  {
    LoadEstablishesInv(p, start, storage);
    HistoryKeepsInv(p, LoadOutcome(p, start, storage).0, ops);
    var st := History(p, LoadOutcome(p, start, storage).0, ops);
    SaveKeepsInv(p, st, gate, outcomes);
    ReloadRestores(p, SaveOutcome(p, st, gate, outcomes).st, reboot, again);
  }

  /** So what the newest accepted update made live is what a save and a restart bring back. */
  lemma NewestAcceptedIsRestored(p: Profile, start: Store, storage: StorageStatus, ops: seq<Op>,
                                 gate: bool, outcomes: seq<StorageStatus>, reboot: Store, again: StorageStatus)
    requires p.validProfile && p.Validate(p.factory) == Success
    requires ToStatus(storage) == Success && ToStatus(again) == Success
    requires (forall op :: op in ops ==> OpFits(p, op)) && |outcomes| == |p.factory|
    requires var r := SaveOutcome(p, History(p, LoadOutcome(p, start, storage).0, ops), gate, outcomes);
             r.status == Success && reboot.flash == r.st.flash
    ensures AllSameEncoding(LoadOutcome(p, reboot, again).0.live,
                            NewestAccepted(p, ops, LoadOutcome(p, start, storage).0.live))
  {
    SaveThenLoadRestores(p, start, storage, ops, gate, outcomes, reboot, again);
    LiveIsNewestAccepted(p, LoadOutcome(p, start, storage).0, ops);
  }

  // ----- The gate --------------------------------------------------------------------------

  predicate OnlyStorage(trace: seq<SaveEvent>) {
    forall e :: e in trace ==> e.TouchesStorage()
  }

  /** Before the gate is granted nothing has happened; after it, only storage operations. */
  predicate TraceSoFar(st: Store, s: Saving) {
    if s.held then |s.trace| > 1 && s.trace[0] == GateBegin(true) && OnlyStorage(s.trace[1..])
    else s.st == st && s == if s.status == Success then Saving(st, Success, false, [])
                            else Saving(st, PersistBlocked, false, [GateBegin(false)])
  }

  lemma OneMoreEvent(trace: seq<SaveEvent>, e: SaveEvent)
    requires |trace| > 0 && OnlyStorage(trace[1..]) && e.TouchesStorage()
    ensures (trace + [e])[0] == trace[0] && OnlyStorage((trace + [e])[1..])
  {
    assert (trace + [e])[1..] == trace[1..] + [e];
  }

  lemma SaveStepTrace(st: Store, s: Saving, i: nat, t: Turn, gate: bool)
    requires i < |s.st.stored| && TraceSoFar(st, s)
    ensures TraceSoFar(st, SaveStep(s, i, t, gate))
  {
    OneMoreEvent(if s.held then s.trace else [GateBegin(true)], if t.erases then Erase(i) else Write(i));
  }

  lemma {:induction false} SaveUpToTrace(st: Store, turns: seq<Turn>, gate: bool)
    requires |turns| <= |st.stored|
    ensures TraceSoFar(st, SaveUpTo(st, turns, gate))
  {
    if |turns| != 0 {
      var (init, last) := (|turns| - 1, turns[|turns| - 1]);
      SaveUpToTrace(st, turns[..init], gate);
      SaveStepTrace(st, SaveUpTo(st, turns[..init], gate), init, last, gate);
    }
  }

  /** What a save does with the gate: nothing, one refused request, or one request around all the storage operations. */
  predicate GateBracketsSave(trace: seq<SaveEvent>) {
    || trace == [] || trace == [GateBegin(false)]
    || (|trace| > 2 && trace[0] == GateBegin(true) && trace[|trace| - 1] == GateEnd
        && OnlyStorage(trace[1..|trace| - 1]))
  }

  lemma TraceIsBracketed(st: Store, s: Saving)
    requires TraceSoFar(st, s)
    ensures var trace := if s.held then s.trace + [GateEnd] else s.trace;
            && GateBracketsSave(trace)
            && (GateBegin(false) in trace ==> s.st == st && s.status == PersistBlocked)
            && (trace == [] ==> s.st == st && s.status == Success)
  {
    if s.held {
      var trace := s.trace + [GateEnd];
      assert trace[1..|trace| - 1] == s.trace[1..];
      assert trace == [GateBegin(true)] + s.trace[1..] + [GateEnd];
    }
  }

  /**
   The gate is entered at most once, before the first storage operation, and left once, after
   the last; a refused gate changes nothing at all.
   */
  lemma SaveBracketedByGate(p: Profile, st: Store, gate: bool, outcomes: seq<StorageStatus>)
    requires Typed(p, st) && |outcomes| == |p.factory|
    ensures var r := SaveOutcome(p, st, gate, outcomes);
            && GateBracketsSave(r.trace)
            && (GateBegin(false) in r.trace ==> r.st == st && r.status == PersistBlocked)
            && (r.trace == [] ==> r.st == st.(eraseDefaults := false) && r.status == Success)
  {
    SaveUpToTrace(st, Turns(p, st, outcomes), gate);
    TraceIsBracketed(st, SaveUpTo(st, Turns(p, st, outcomes), gate));
  }

  lemma {:induction false} NothingToDo(st: Store, turns: seq<Turn>, gate: bool)
    requires |turns| <= |st.stored| && forall i :: 0 <= i < |turns| ==> !turns[i].due
    ensures SaveUpTo(st, turns, gate) == Saving(st, Success, false, [])
  {
    if |turns| != 0 {
      NothingToDo(st, turns[..|turns| - 1], gate);
    }
  }

  /** After a successful save the next one touches neither the gate nor the storage. */
  lemma SecondSaveDoesNothing(p: Profile, st: Store, gate: bool, outcomes: seq<StorageStatus>,
                              gate': bool, outcomes': seq<StorageStatus>)
    requires Inv(p, st) && |outcomes| == |p.factory| == |outcomes'|
    requires SaveOutcome(p, st, gate, outcomes).status == Success
    ensures var r := SaveOutcome(p, st, gate, outcomes);
            Typed(p, r.st) && SaveOutcome(p, r.st, gate', outcomes') == SaveResult(r.st, Success, [])
  {
    SaveKeepsInv(p, st, gate, outcomes);
    var r := SaveOutcome(p, st, gate, outcomes).st;
    NothingToDo(r, Turns(p, r, outcomes'), gate');
  }

  // ----- The store as it runs ---------------------------------------------------------------

  /** What LoadAll() passes on: every stored entry once, in any order. */
  ghost predicate Enumerates(entries: seq<(Key, seq<Byte>)>, flash: Flash) {
    && (forall i, j :: 0 <= i < j < |entries| ==> entries[i].0 != entries[j].0)
    && (forall i :: 0 <= i < |entries| ==> entries[i].0 in flash && flash[entries[i].0] == entries[i].1)
    && (forall k :: k in flash ==> exists i :: 0 <= i < |entries| && entries[i].0 == k)
  }

  /** The entries of the storage seen so far. */
  function Seen(entries: seq<(Key, seq<Byte>)>): (r: Flash) {
    if |entries| == 0 then map[]
    else Seen(entries[..|entries| - 1])[entries[|entries| - 1].0 := entries[|entries| - 1].1]
  }

  /** One entry: its key is among the first `n` exactly if it was there before or is the n-th. */
  predicate KeyAmong(entries: seq<(Key, seq<Byte>)>, n: nat, k: Key)
    requires n <= |entries|
  {
    exists i :: 0 <= i < n && entries[i].0 == k
  }

  lemma {:induction false} SeenPrefix(entries: seq<(Key, seq<Byte>)>, flash: Flash, n: nat)
    requires Enumerates(entries, flash) && n <= |entries|
    ensures forall k :: k in Seen(entries[..n]) <==> KeyAmong(entries, n, k)
    ensures forall k :: k in Seen(entries[..n]) ==> k in flash && Seen(entries[..n])[k] == flash[k]
  {
    if n != 0 {
      SeenPrefix(entries, flash, n - 1);
      assert entries[..n][..n - 1] == entries[..n - 1];
      forall k
        ensures KeyAmong(entries, n, k) <==> KeyAmong(entries, n - 1, k) || k == entries[n - 1].0
      {
        assert k == entries[n - 1].0 ==> KeyAmong(entries, n, k);
      }
    }
  }

  lemma SeenAll(entries: seq<(Key, seq<Byte>)>, flash: Flash)
    requires Enumerates(entries, flash)
    ensures Seen(entries) == flash
  {
    SeenPrefix(entries, flash, |entries|);
    assert entries[..|entries|] == entries;
    assert forall k :: k in flash ==> KeyAmong(entries, |entries|, k);
  }

  lemma NextIsNew(entries: seq<(Key, seq<Byte>)>, flash: Flash, n: nat)
    requires Enumerates(entries, flash) && n < |entries|
    ensures entries[n].0 !in Seen(entries[..n])
    ensures Seen(entries[..n + 1]) == Seen(entries[..n])[entries[n].0 := entries[n].1]
  {
    SeenPrefix(entries, flash, n);
    assert !KeyAmong(entries, n, entries[n].0);
    assert entries[..n + 1][..n] == entries[..n];
  }

  /** `loaded`, `undecodable` and `count` after the entries in `seen`. */
  ghost predicate LoadedSoFar(p: Profile, seen: Flash, loaded: Settings, undecodable: bool, count: nat) {
    && loaded == Loaded(p, seen)
    && undecodable == AnyUndecodable(p, seen)
    && (count > 0 <==> AnyStored(p, seen))
  }

  /** The entry belongs to one of the first `n` registers and does not decode. */
  predicate BreaksBelow(p: Profile, key: Key, value: seq<Byte>, n: nat)
    requires n <= |p.factory|
  {
    key.Register? && key.i < n && Decode(p.factory[key.i].Kind(), value).Undecodable?
  }

  lemma OneMoreEntry(p: Profile, seen: Flash, key: Key, value: seq<Byte>)
    requires key !in seen
    ensures var after, n := seen[key := value], |p.factory|;
            && (AnyUndecodable(p, after) <==> AnyUndecodable(p, seen) || BreaksBelow(p, key, value, n))
            && (AnyStored(p, after) <==> AnyStored(p, seen) || (key.Register? && key.i < n))
  {
    var after, n := seen[key := value], |p.factory|;
    assert forall i :: 0 <= i < n ==>
      (IsUndecodable(p, after, i) <==>
         IsUndecodable(p, seen, i) || (Register(i) == key && BreaksBelow(p, key, value, n)));
    assert forall i :: 0 <= i < n && Register(i) in seen ==> Register(i) in after;
    if key.Register? && key.i < n {
      assert Register(key.i) in after;
      assert BreaksBelow(p, key, value, n) ==> IsUndecodable(p, after, key.i);
    }
  }

  class SettingsStore {
    const profile: Profile
    var settings: Settings
    var stored: Settings
    var eraseDefaults: bool
    var flash: Flash

    ghost function State(): (n: Store)
      reads this
    {
      Store(settings, stored, eraseDefaults, flash)
    }

    constructor (profile: Profile, flash: Flash)
      ensures this.profile == profile
      ensures State() == Store(profile.factory, profile.factory, false, flash)
    {
      this.profile := profile;
      settings, stored, eraseDefaults := profile.factory, profile.factory, false;
      this.flash := flash;
    }

    /** The visitor of Load(): one stored entry against all registers. */
    method LoadEntry(key: Key, value: seq<Byte>, loaded: Settings, undecodable: bool, count: nat, ghost seen: Flash)
      returns (loaded': Settings, undecodable': bool, count': nat)
      requires LoadedSoFar(profile, seen, loaded, undecodable, count) && key !in seen
      ensures LoadedSoFar(profile, seen[key := value], loaded', undecodable', count')
    {
      loaded', undecodable', count' := loaded, undecodable, count;
      var n := |profile.factory|;
      for i := 0 to n
        invariant profile.Fits(loaded')
        invariant forall j :: 0 <= j < n ==>
                    loaded'[j] == LoadedValue(profile, if j < i then seen[key := value] else seen, j)
        invariant undecodable' == (undecodable || BreaksBelow(profile, key, value, i))
        invariant count' == count + if key.Register? && key.i < i then 1 else 0
      {
        if Register(i) == key {
          count' := count' + 1;
          match Decode(profile.factory[i].Kind(), value) {
            case Undecodable => undecodable' := true;
            case Decoded(v) => loaded' := loaded'[i := v];
          }
        }
      }
      OneMoreEntry(profile, seen, key, value);
    }

    /** The loop of Load() over what the storage enumerates. */
    method LoadAll(entries: seq<(Key, seq<Byte>)>) returns (loaded: Settings, undecodable: bool, count: nat)
      requires Enumerates(entries, flash)
      ensures LoadedSoFar(profile, flash, loaded, undecodable, count)
    {
      loaded, undecodable, count := profile.factory, false, 0;
      assert loaded == Loaded(profile, map[]);
      for n := 0 to |entries|
        invariant LoadedSoFar(profile, Seen(entries[..n]), loaded, undecodable, count)
      {
        NextIsNew(entries, flash, n);
        loaded, undecodable, count :=
          LoadEntry(entries[n].0, entries[n].1, loaded, undecodable, count, Seen(entries[..n]));
      }
      SeenAll(entries, flash);
      assert entries[..|entries|] == entries;
    }

    /** Load(); `entries` is what the storage enumerates, `storage` how the enumeration ends. */
    method Load(entries: seq<(Key, seq<Byte>)>, storage: StorageStatus) returns (status: Status)
      requires Enumerates(entries, flash)
      modifies this
      ensures (State(), status) == LoadOutcome(profile, old(State()), storage)
      ensures !profile.validProfile ==> status == InvalidSettings && State() == old(State())
      ensures profile.validProfile ==> LoadReports(profile, State(), storage, status)
    {
      if !profile.validProfile {
        return InvalidSettings;
      }
      LoadOutcomeReports(profile, State(), storage);
      settings, stored, eraseDefaults := profile.factory, profile.factory, false;
      var loaded, undecodable, count := LoadAll(entries);
      if storage != StorageSuccess && storage != NotFound {
        return ToStatus(storage);
      }
      stored := loaded;
      eraseDefaults := undecodable;
      var validation := if undecodable then InvalidImage else profile.Validate(loaded);
      if validation != Success {
        return validation;
      }
      settings := loaded;
      return if count == 0 then FactoryDefaults else Success;
    }

    /** Commit(), as Update() and ResetToFactoryDefaults() call it. */
    method Commit(candidate: Settings) returns (status: Status)
      modifies this`settings
      ensures (State(), status) == CommitOutcome(profile, old(State()), candidate)
      ensures status == profile.Validate(candidate)
      ensures settings == if status == Success then candidate else old(settings)
    {
      status := profile.Validate(candidate);
      if status == Success {
        settings := candidate;
      }
    }

    /** One register of SaveChanged(); `outcome`: what its storage operation reports. */
    method SaveOne(i: nat, gate: bool, outcome: StorageStatus, s: Status, held: bool, soFar: seq<SaveEvent>)
      returns (status: Status, saving: bool, trace: seq<SaveEvent>)
      requires Typed(profile, State()) && i < |profile.factory|
      modifies this`stored, this`flash
      ensures var t := TurnOf(profile, old(State()), i, outcome);
              Saving(State(), status, saving, trace) == SaveStep(Saving(old(State()), s, held, soFar), i, t, gate)
    {
      status, saving, trace := s, held, soFar;
      if status != Success {
        return;
      }
      var atFactory := SameEncoding(settings[i], profile.factory[i]);
      var changed := !SameEncoding(settings[i], stored[i]);
      if !changed && !(eraseDefaults && atFactory) {
        return;
      }
      if !saving {
        if !gate {
          return PersistBlocked, false, trace + [GateBegin(false)];
        }
        saving, trace := true, trace + [GateBegin(true)];
      }
      trace := trace + [if atFactory then Erase(i) else Write(i)];
      status := ToStatus(outcome);
      if status == Success {
        flash := if atFactory then flash - {Register(i)} else flash[Register(i) := Encode(settings[i])];
        stored := stored[i := settings[i]];
      }
    }

    /** SaveChanged(); `gate`: the save gate would be granted; `outcomes`: what the storage operations report. */
    method SaveToFlash(gate: bool, outcomes: seq<StorageStatus>) returns (status: Status, trace: seq<SaveEvent>)
      requires Typed(profile, State()) && |outcomes| == |profile.factory|
      modifies this`stored, this`eraseDefaults, this`flash
      ensures SaveResult(State(), status, trace) == SaveOutcome(profile, old(State()), gate, outcomes)
    {
      var saving := false;
      status, trace := Success, [];
      var n := |profile.factory|;
      ghost var turns := Turns(profile, State(), outcomes);
      for i := 0 to n
        invariant Saving(State(), status, saving, trace) == SaveUpTo(old(State()), turns[..i], gate)
        invariant Typed(profile, State()) && forall m :: i <= m < n ==> stored[m] == old(stored)[m]
      {
        ghost var before := Saving(State(), status, saving, trace);
        SameTurn(profile, old(State()), State(), i, outcomes[i]);
        status, saving, trace := SaveOne(i, gate, outcomes[i], status, saving, trace);
        OneMoreTurn(old(State()), turns, i, gate, before, Saving(State(), status, saving, trace));
      }
      assert turns[..n] == turns;
      if saving {
        trace := trace + [GateEnd];
      }
      if status == Success {
        eraseDefaults := false;
      }
    }
  }
}
