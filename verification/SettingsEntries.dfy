/** What every save leaves in the storage, entry by entry, and what it reports; also when it is refused or fails. */
module SettingsEntries {
  import opened RegisterCodec
  import opened SettingsPersistence

  // ----- What has to be saved -------------------------------------------------------------------

  /** The live value is not stored, or a repair erases every entry of a register at its factory value. */
  predicate Due(p: Profile, st: Store, j: nat)
    requires Typed(p, st) && j < |p.factory|
  {
    !SameEncoding(st.live[j], st.stored[j]) || (st.eraseDefaults && SameEncoding(st.live[j], p.factory[j]))
  }

  /** Register `i` needs nothing, or the gate and the storage let it be saved. */
  predicate Succeeds(p: Profile, st: Store, gate: bool, outcomes: seq<StorageStatus>, i: nat)
    requires Typed(p, st) && i < |p.factory| == |outcomes|
  {
    Due(p, st, i) ==> gate && ToStatus(outcomes[i]) == Success
  }

  predicate AllSucceed(p: Profile, st: Store, gate: bool, outcomes: seq<StorageStatus>, n: nat)
    requires Typed(p, st) && n <= |p.factory| == |outcomes|
  {
    forall i :: 0 <= i < n ==> Succeeds(p, st, gate, outcomes, i)
  }

  /** The first failure is at register `f`. */
  predicate FailsAt(p: Profile, st: Store, gate: bool, outcomes: seq<StorageStatus>, f: nat)
    requires Typed(p, st) && f < |p.factory| == |outcomes|
  {
    AllSucceed(p, st, gate, outcomes, f) && !Succeeds(p, st, gate, outcomes, f)
  }

  /** What the turn of register `i` asks of the storage. */
  function Operation(p: Profile, st: Store, i: nat): (r: seq<SaveEvent>)
    requires Typed(p, st) && i < |p.factory|
  {
    if !Due(p, st, i) then [] else if SameEncoding(st.live[i], p.factory[i]) then [Erase(i)] else [Write(i)]
  }

  /** The entry of register `j` after its turn: erased at the factory value, otherwise the live encoding. */
  predicate EntrySaved(p: Profile, st: Store, flash: Flash, j: nat)
    requires Typed(p, st) && j < |p.factory|
  {
    var k := Register(j);
    if !Due(p, st, j) then SameEntry(st.flash, flash, k)
    else if SameEncoding(st.live[j], p.factory[j]) then k !in flash
    else k in flash && flash[k] == Encode(st.live[j])
  }

  // ----- The turns --------------------------------------------------------------------------------

  lemma TurnFailsIff(p: Profile, st: Store, gate: bool, outcomes: seq<StorageStatus>, i: nat)
    requires Typed(p, st) && i < |p.factory| == |outcomes|
    ensures var t := Turns(p, st, outcomes)[i];
            (Fails(t, gate) <==> !Succeeds(p, st, gate, outcomes, i)) && t.outcome == ToStatus(outcomes[i])
  {
  }

  function OperationOf(t: Turn, i: nat): (r: seq<SaveEvent>) {
    if t.due then [if t.erases then Erase(i) else Write(i)] else []
  }

  /** A turn has the operation that is due for its register. */
  lemma OperationIs(p: Profile, st: Store, outcomes: seq<StorageStatus>, i: nat)
    requires Typed(p, st) && i < |p.factory| == |outcomes|
    ensures OperationOf(Turns(p, st, outcomes)[i], i) == Operation(p, st, i)
    ensures Turns(p, st, outcomes)[i].due <==> Due(p, st, i)
  {
  }

  lemma NoneFailsIff(p: Profile, st: Store, gate: bool, outcomes: seq<StorageStatus>, n: nat)
    requires Typed(p, st) && n <= |p.factory| == |outcomes|
    ensures NoneFails(Turns(p, st, outcomes)[..n], gate) <==> AllSucceed(p, st, gate, outcomes, n)
  {
    var turns := Turns(p, st, outcomes)[..n];
    forall i | 0 <= i < n
      ensures Fails(turns[i], gate) <==> !Succeeds(p, st, gate, outcomes, i)
    {
      TurnFailsIff(p, st, gate, outcomes, i);
    }
  }

  /** The operations of the turns, up to the first failure. */
  function TriedOf(turns: seq<Turn>): (r: seq<SaveEvent>) {
    if |turns| == 0 then []
    else
      var (init, last) := (|turns| - 1, turns[|turns| - 1]);
      if NoneFails(turns[..init], true) then TriedOf(turns[..init]) + OperationOf(last, init)
      else TriedOf(turns[..init])
  }

  /** A save under way that has tried the given operations. */
  predicate Traces(st: Store, s: Saving, gate: bool, tried: seq<SaveEvent>) {
    if gate then s.held == (tried != []) && s.trace == Bracketed(tried)
    else s.st == st && s.trace == if s.status == Success then [] else [GateBegin(false)]
  }

  function Bracketed(tried: seq<SaveEvent>): (r: seq<SaveEvent>) {
    if tried == [] then [] else [GateBegin(true)] + tried
  }

  lemma TurnTraces(st: Store, s: Saving, i: nat, t: Turn, gate: bool, tried: seq<SaveEvent>)
    requires i < |s.st.stored| && (s.held ==> gate) && Traces(st, s, gate, tried)
    ensures Traces(st, SaveStep(s, i, t, gate), gate,
                   if s.status == Success then tried + OperationOf(t, i) else tried)
  {
    assert [GateBegin(true)] + tried + OperationOf(t, i) == [GateBegin(true)] + (tried + OperationOf(t, i));
  }

  lemma {:induction false} TraceOfSave(st: Store, turns: seq<Turn>, gate: bool)
    requires |turns| <= |st.stored|
    ensures Traces(st, SaveUpTo(st, turns, gate), gate, if gate then TriedOf(turns) else [])
  {
    if |turns| != 0 {
      var init := turns[..|turns| - 1];
      TraceOfSave(st, init, gate);
      HeldIsGranted(st, init, gate);
      SuccessIffNoneFails(st, init, gate);
      TurnTraces(st, SaveUpTo(st, init, gate), |turns| - 1, turns[|turns| - 1], gate,
                 if gate then TriedOf(init) else []);
    }
  }

  // ----- Every save ---------------------------------------------------------------------------------

  /**
   A save succeeds exactly if the gate is granted and the storage takes all that is due; otherwise it reports
   the first failure. Its storage operations are those due, in their order and inside the gate; without the gate
   nothing changes.
   */
  lemma SaveReports(p: Profile, st: Store, gate: bool, outcomes: seq<StorageStatus>)
    requires Typed(p, st) && |outcomes| == |p.factory|
    ensures var (r, n) := (SaveOutcome(p, st, gate, outcomes), |p.factory|);
            && (r.status == Success <==> AllSucceed(p, st, gate, outcomes, n))
            && (forall f :: 0 <= f < n && FailsAt(p, st, gate, outcomes, f) ==>
                  r.status == if gate then ToStatus(outcomes[f]) else PersistBlocked)
            && (gate ==> r.trace == var tried := TriedOf(Turns(p, st, outcomes));
                                    if tried == [] then [] else [GateBegin(true)] + tried + [GateEnd])
            && (!gate ==> r.trace == if r.status == Success then [] else [GateBegin(false)])
            && (!gate ==> r.st.flash == st.flash && r.st.stored == st.stored)
  {
    var (turns, n) := (Turns(p, st, outcomes), |p.factory|);
    assert turns[..n] == turns;
    SuccessIffNoneFails(st, turns, gate);
    NoneFailsIff(p, st, gate, outcomes, n);
    TraceOfSave(st, turns, gate);
    HeldIsGranted(st, turns, gate);
    forall f | 0 <= f < n && FailsAt(p, st, gate, outcomes, f)
      ensures SaveUpTo(st, turns, gate).status == if gate then ToStatus(outcomes[f]) else PersistBlocked
    {
      NoneFailsIff(p, st, gate, outcomes, f);
      TurnFailsIff(p, st, gate, outcomes, f);
      FirstFailureIsReported(st, turns, gate, f);
    }
  }

  lemma TurnSaves(p: Profile, st: Store, r: Store, outcomes: seq<StorageStatus>, j: nat, t: Turn, performed: bool)
    requires Typed(p, st) && j < |p.factory| == |outcomes| && t == Turns(p, st, outcomes)[j]
    requires if performed then t.due && Performed(r, t, j) else SameElsewhere(st, r, Register(j))
    ensures performed || !t.due ==> EntrySaved(p, st, r.flash, j)
  {
  }

  /**
   The entry of each register is saved exactly if nothing failed up to it (NoneFailsIff says when); the others
   are as they were.
   */
  lemma SavedUpToFailure(p: Profile, st: Store, gate: bool, outcomes: seq<StorageStatus>, j: nat)
    requires Typed(p, st) && j < |p.factory| == |outcomes|
    ensures var r := SaveOutcome(p, st, gate, outcomes).st;
            if NoneFails(Turns(p, st, outcomes)[..j + 1], gate) then EntrySaved(p, st, r.flash, j)
            else SameElsewhere(st, r, Register(j))
  {
    var turns := Turns(p, st, outcomes);
    var reached := NoneFails(turns[..j + 1], gate);
    TurnLeaves(st, turns, gate, j, reached);
    TurnSaves(p, st, SaveUpTo(st, turns, gate).st, outcomes, j, turns[j], reached && turns[j].due);
  }

  /**
   A save that reports success has erased every entry it had to save whose register is back at its
   factory value, has written the live encoding of the others, and touched nothing else: neither the
   entries that needed no save nor those this firmware does not know.
   */
  lemma SaveTouchesWhatChanged(p: Profile, st: Store, gate: bool, outcomes: seq<StorageStatus>)
    requires Typed(p, st) && |outcomes| == |p.factory|
    ensures var r := SaveOutcome(p, st, gate, outcomes);
            && (r.status == Success ==> forall j :: 0 <= j < |p.factory| ==> EntrySaved(p, st, r.st.flash, j))
            && (forall name :: SameEntry(st.flash, r.st.flash, Unknown(name)))
  {
    SuccessIffNoneFails(st, Turns(p, st, outcomes), gate);
    if NoneFails(Turns(p, st, outcomes), gate) {
      forall j | 0 <= j < |p.factory|
        ensures EntrySaved(p, st, SaveOutcome(p, st, gate, outcomes).st.flash, j)
      {
        SavedUpToFailure(p, st, gate, outcomes, j);
      }
    }
    forall name
      ensures SameEntry(st.flash, SaveOutcome(p, st, gate, outcomes).st.flash, Unknown(name))
    {
      SavedEntry(st, Turns(p, st, outcomes), gate, Unknown(name));
    }
  }
}
