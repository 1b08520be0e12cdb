/**
 Execution-time statistics of one interrupt section.

 The measured interrupt folds each time into its accumulator and publishes it through a sequence
 lock; a thread reads the lock, and any context may ask for a reset at any moment, also in the
 middle of a record. The accumulator fields are 32-bit (the sum 64-bit) registers that wrap.
 */
module HotPathProbe {
  import SeqLock

  const WRAP32: nat := 0x1_0000_0000
  const WRAP64: nat := 0x1_0000_0000_0000_0000

  datatype Stats = Stats(min: nat, max: nat, sum: nat, count: nat) {
    /** Mean execution time; 0 without a record. */
    function MeanCycles(): (r: nat) {
      if count == 0 then 0 else (sum / count) % WRAP32
    }
  }

  const EMPTY := Stats(WRAP32 - 1, 0, 0, 0)

  function Added(s: Stats, cycles: nat): (r: Stats) {
    Stats(if cycles < s.min then cycles else s.min,
          if s.max < cycles then cycles else s.max,
          (s.sum + cycles) % WRAP64,
          (s.count + 1) % WRAP32)
  }

  /** The statistics of a list of records. */
  function Fold(records: seq<nat>): (r: Stats) {
    if |records| == 0 then EMPTY
    else Added(Fold(records[..|records| - 1]), records[|records| - 1])
  }

  function Words(s: Stats): (w: SeqLock.Words)
    ensures |w| == 4
  {
    [s.min, s.max, s.sum, s.count]
  }

  // ----- What the statistics mean ------------------------------------------------------

  function Total(records: seq<nat>): (r: nat) {
    if |records| == 0 then 0 else Total(records[..|records| - 1]) + records[|records| - 1]
  }

  predicate Cycles(records: seq<nat>) {
    forall i :: 0 <= i < |records| ==> records[i] < WRAP32
  }

  lemma {:induction false} TotalBounds(records: seq<nat>, low: nat, high: nat)
    requires forall i :: 0 <= i < |records| ==> low <= records[i] <= high
    ensures low * |records| <= Total(records) <= high * |records|
  {
    if |records| != 0 {
      var n := |records| - 1;
      TotalBounds(records[..n], low, high);
      OneMore(low, n);
      OneMore(high, n);
      assert Total(records) == Total(records[..n]) + records[n];
    }
  }

  lemma OneMore(x: nat, n: nat)
    ensures x * (n + 1) == x * n + x
  {
  }

  /** Minimum and maximum are bounds, attained ones if there is a record. */
  predicate Bounded(records: seq<nat>, s: Stats) {
    && s.min < WRAP32 && s.max < WRAP32
    && (forall i :: 0 <= i < |records| ==> s.min <= records[i] <= s.max)
    && (if |records| > 0 then s.min in records && s.max in records else s == EMPTY)
  }

  /** Every field says what it stands for. */
  predicate Exact(records: seq<nat>, s: Stats) {
    s.count == |records| && s.sum == Total(records) && Bounded(records, s)
  }

  lemma SumFits(records: seq<nat>)
    requires Cycles(records) && |records| < WRAP32
    ensures Total(records) < WRAP64
  {
    TotalBounds(records, 0, WRAP32 - 1);
    assert (WRAP32 - 1) * |records| < WRAP64;
  }

  lemma TotalGrows(records: seq<nat>, cycles: nat)
    ensures Total(records + [cycles]) == Total(records) + cycles
  {
    assert (records + [cycles])[..|records|] == records;
  }

  lemma FoldGrows(records: seq<nat>, cycles: nat)
    ensures Fold(records + [cycles]) == Added(Fold(records), cycles)
  {
    assert (records + [cycles])[..|records|] == records;
  }

  lemma BoundsGrow(records: seq<nat>, cycles: nat, s: Stats)
    requires Bounded(records, s) && cycles < WRAP32
    ensures Bounded(records + [cycles], Added(s, cycles))
  {
    var all := records + [cycles];
    assert all[|records|] == cycles;
    if s.min in records {
      assert s.min in all && s.max in all;
    }
  }

  lemma NothingWraps(s: Stats, cycles: nat)
    requires s.sum + cycles < WRAP64 && s.count + 1 < WRAP32
    ensures Added(s, cycles).sum == s.sum + cycles && Added(s, cycles).count == s.count + 1
  {
  }

  lemma ExactGrows(records: seq<nat>, cycles: nat, s: Stats)
    requires Exact(records, s) && cycles < WRAP32
    requires |records| + 1 < WRAP32 && Total(records + [cycles]) < WRAP64
    ensures Exact(records + [cycles], Added(s, cycles))
  {
    TotalGrows(records, cycles);
    NothingWraps(s, cycles);
    BoundsGrow(records, cycles, s);
  }

  /** For fewer than 2^32 records every field is exact. */
  lemma {:induction false} FoldIsExact(records: seq<nat>)
    requires Cycles(records) && |records| < WRAP32
    ensures Exact(records, Fold(records))
  {
    if |records| != 0 {
      var (init, last) := (records[..|records| - 1], records[|records| - 1]);
      assert records == init + [last];
      FoldIsExact(init);
      SumFits(records);
      FoldGrows(init, last);
      ExactGrows(init, last, Fold(init));
    }
  }

  lemma MeanOfExact(records: seq<nat>, s: Stats)
    requires Exact(records, s) && |records| > 0
    ensures s.min <= Total(records) / |records| <= s.max
    ensures s.MeanCycles() == Total(records) / |records|
  {
    TotalBounds(records, s.min, s.max);
    QuotientBounds(Total(records), |records|, s.min, s.max);
  }

  lemma MeanBetweenMinAndMax(records: seq<nat>)
    requires Cycles(records) && 0 < |records| < WRAP32
    ensures var s := Fold(records);
            && s.min <= s.MeanCycles() <= s.max
            && s.MeanCycles() == Total(records) / |records|
  {
    FoldIsExact(records);
    MeanOfExact(records, Fold(records));
  }

  lemma QuotientBounds(sum: nat, count: nat, low: nat, high: nat)
    requires count > 0 && low * count <= sum <= high * count
    ensures low <= sum / count <= high
  {
    var q := sum / count;
    assert q * count <= sum < (q + 1) * count;
    ProductOrder(q + 1, low, count);
    ProductOrder(high + 1, q, count);
  }

  lemma ProductOrder(a: nat, b: nat, c: nat)
    ensures a <= b ==> a * c <= b * c
  {
  }

  // ----- Record, Read and Reset, interleaved -----------------------------------------------

  /** Record() between its load of the reset flag and the rest. */
  datatype Recording = NotRecording | Loaded(cycles: nat, reset: bool)

  /**
   `log` lists all records. `starts[k]` is the first record that the k-th published value counts.
   `asked` is the number of records that were complete at the newest reset request.
   */
  datatype State = State(lock: SeqLock.State, accumulator: Stats, resetRequested: bool, recording: Recording,
                         log: seq<nat>, starts: seq<nat>, asked: nat)

  datatype Action =
    | Reset
    | RecordLoad(cycles: nat)
    | RecordUpdate
    | Lock(step: SeqLock.Action)  // a word or the end of the publishing write; a step of Read()

  predicate Possible(s: State, a: Action) {
    match a
    case Reset => true
    case RecordLoad(cycles) => cycles < WRAP32 && s.recording.NotRecording? && s.lock.writer.WriterIdle?
    case RecordUpdate => s.recording.Loaded? && s.lock.writer.WriterIdle? && |s.lock.value| == 4
    case Lock(step) => !step.WriteBegin? && SeqLock.Possible(s.lock, step)
  }

  function Next(s: State, a: Action): (n: State)
    requires Possible(s, a) && |s.lock.published| > 0 && |s.starts| > 0
  {
    match a
    case Reset => s.(resetRequested := true, asked := |s.log|)
    case RecordLoad(cycles) => s.(recording := Loaded(cycles, s.resetRequested))
    case RecordUpdate =>
      var cleared := s.recording.reset;
      var sum := Added(if cleared then EMPTY else s.accumulator, s.recording.cycles);
      s.(resetRequested := s.resetRequested && !cleared, accumulator := sum, recording := NotRecording,
         log := s.log + [s.recording.cycles],
         starts := s.starts + [if cleared then |s.log| else s.starts[|s.starts| - 1]],
         lock := SeqLock.Next(s.lock, SeqLock.WriteBegin(Words(sum))))
    case Lock(step) => s.(lock := SeqLock.Next(s.lock, step))
  }

  predicate Initial(s: State) {
    && SeqLock.Initial(s.lock) && s.lock.value == Words(EMPTY) && s.accumulator == EMPTY
    && !s.resetRequested && s.recording.NotRecording? && s.log == [] && s.starts == [0] && s.asked == 0
  }

  /** The records that the k-th published value counts. */
  function Counted(log: seq<nat>, starts: seq<nat>, k: nat): (r: seq<nat>)
    requires k < |starts| && k <= |log| && starts[k] <= k
  {
    log[starts[k]..k]
  }

  /** Each published value counts records from its start on, and the accumulator all up to the last one. */
  predicate Counts(log: seq<nat>, starts: seq<nat>, accumulator: Stats) {
    && |starts| == |log| + 1
    && Cycles(log)
    && (forall k :: 0 <= k < |starts| ==> starts[k] <= k)
    && accumulator == Fold(Counted(log, starts, |log|))
  }

  predicate PublishedFolds(log: seq<nat>, starts: seq<nat>, published: seq<SeqLock.Words>)
    requires |published| <= |starts| == |log| + 1 && forall k :: 0 <= k < |starts| ==> starts[k] <= k
  {
    forall k :: 0 <= k < |published| ==> published[k] == Words(Fold(Counted(log, starts, k)))
  }

  predicate LogInv(s: State) {
    Counts(s.log, s.starts, s.accumulator) && (s.recording.Loaded? ==> s.recording.cycles < WRAP32)
  }

  predicate PublishedInv(s: State)
    requires LogInv(s)
  {
    && |s.lock.value| == 4
    && |s.lock.published| == (if s.lock.writer.WriterIdle? then |s.starts| else |s.log|)
    && (s.lock.writer.Writing? ==> s.lock.writer.v == Words(s.accumulator) && s.recording.NotRecording?)
    && PublishedFolds(s.log, s.starts, s.lock.published)
  }

  /** A request waits at most until the record after the one it may have interrupted. */
  predicate ResetInv(s: State)
    requires LogInv(s)
  {
    var start := s.starts[|s.log|];
    && s.asked <= |s.log|
    && (s.resetRequested ==> |s.log| <= s.asked + 1)
    && (s.resetRequested && |s.log| == s.asked + 1 && s.recording.Loaded? ==> s.recording.reset)
    && (!s.resetRequested ==> s.asked <= start <= s.asked + 1)
    && (s.recording.Loaded? && s.recording.reset ==> s.resetRequested)
  }

  ghost predicate Inv(s: State) {
    SeqLock.Inv(s.lock) && LogInv(s) && PublishedInv(s) && ResetInv(s)
  }

  lemma SliceGrows(log: seq<nat>, cycles: nat, from: nat)
    requires from <= |log|
    ensures (log + [cycles])[from..] == log[from..] + [cycles]
  {
  }

  lemma SliceKept(log: seq<nat>, cycles: nat, from: nat, k: nat)
    requires from <= k <= |log|
    ensures (log + [cycles])[from..k] == log[from..k]
  {
  }

  /** The start of the statistics that the next record belongs to. */
  function NextStart(log: seq<nat>, starts: seq<nat>, cleared: bool): (from: nat)
    requires |starts| == |log| + 1
  {
    if cleared then |log| else starts[|log|]
  }

  lemma CountsGrow(log: seq<nat>, starts: seq<nat>, accumulator: Stats, cleared: bool, cycles: nat)
    requires Counts(log, starts, accumulator) && cycles < WRAP32
    ensures Counts(log + [cycles], starts + [NextStart(log, starts, cleared)],
                   Added(if cleared then EMPTY else accumulator, cycles))
  {
    var from := NextStart(log, starts, cleared);
    var (l, s) := (log + [cycles], starts + [from]);
    assert Counted(l, s, |l|) == log[from..] + [cycles] by {
      SliceGrows(log, cycles, from);
      assert l[from..|l|] == l[from..];
    }
    assert Fold(log[from..]) == if cleared then EMPTY else accumulator by {
      assert log[from..|log|] == log[from..];
    }
    FoldGrows(log[from..], cycles);
  }

  lemma PublishedKept(log: seq<nat>, starts: seq<nat>, published: seq<SeqLock.Words>, from: nat, cycles: nat)
    requires |published| <= |starts| == |log| + 1 && from <= |log|
    requires forall k :: 0 <= k < |starts| ==> starts[k] <= k
    requires PublishedFolds(log, starts, published)
    ensures PublishedFolds(log + [cycles], starts + [from], published)
  {
    forall k | 0 <= k < |published|
      ensures Counted(log + [cycles], starts + [from], k) == Counted(log, starts, k)
    {
      SliceKept(log, cycles, starts[k], k);
    }
  }

  lemma UpdateKeepsLog(s: State)
    requires LogInv(s) && PublishedInv(s) && Possible(s, RecordUpdate) && |s.lock.published| > 0
    ensures LogInv(Next(s, RecordUpdate)) && PublishedInv(Next(s, RecordUpdate))
  {
    var (cycles, cleared) := (s.recording.cycles, s.recording.reset);
    CountsGrow(s.log, s.starts, s.accumulator, cleared, cycles);
    PublishedKept(s.log, s.starts, s.lock.published, NextStart(s.log, s.starts, cleared), cycles);
  }

  lemma NextKeepsInv(s: State, a: Action)
    requires Inv(s) && Possible(s, a) && SeqLock.Narrow(s.lock)
    ensures Inv(Next(s, a))
  {
    match a {
      case RecordUpdate =>
        UpdateKeepsLog(s);
        SeqLock.NextKeepsInv(s.lock, SeqLock.WriteBegin(Words(Next(s, a).accumulator)));
      case Lock(step) =>
        LockKeepsInv(s, step);
      case Reset =>
        SameLog(s, Next(s, a));
      case RecordLoad(_) =>
        SameLog(s, Next(s, a));
    }
  }

  lemma LockEffect(s: SeqLock.State, step: SeqLock.Action)
    requires SeqLock.Possible(s, step) && !step.WriteBegin? && |s.published| > 0
    ensures var n := SeqLock.Next(s, step);
            && |n.value| == |s.value| && (s.writer.WriterIdle? ==> n.writer.WriterIdle?)
            && (if step.WriteEnd? then n.writer.WriterIdle? && n.published == s.published + [s.writer.v]
                else n.published == s.published && n.writer.WriterIdle? == s.writer.WriterIdle?)
            && (n.writer.Writing? ==> n.writer.v == s.writer.v)
  {
  }

  lemma PublishedGrows(s: State)
    requires LogInv(s) && PublishedInv(s) && s.lock.writer.Writing?
    ensures PublishedFolds(s.log, s.starts, s.lock.published + [s.lock.writer.v])
  {
  }

  lemma LockKeepsInv(s: State, step: SeqLock.Action)
    requires Inv(s) && Possible(s, Lock(step)) && SeqLock.Narrow(s.lock)
    ensures Inv(Next(s, Lock(step)))
  {
    SeqLock.NextKeepsInv(s.lock, step);
    LockEffect(s.lock, step);
    if step.WriteEnd? {
      PublishedGrows(s);
    }
  }

  lemma SameLog(s: State, n: State)
    requires LogInv(s) && PublishedInv(s)
    requires n.log == s.log && n.starts == s.starts && n.lock == s.lock && n.accumulator == s.accumulator
    requires n.recording.Loaded? ==> n.recording.cycles < WRAP32 && (s.lock.writer.Writing? ==> s.recording.Loaded?)
    ensures LogInv(n) && PublishedInv(n)
  {
  }

  function Step(s: State, a: Action): (r: State)
    requires |s.lock.published| > 0 && |s.starts| > 0
    ensures |r.lock.published| > 0 && |r.starts| > 0
  {
    if Possible(s, a) then Next(s, a) else s
  }

  function Run(s: State, actions: seq<Action>): (r: State)
    requires |s.lock.published| > 0 && |s.starts| > 0
    ensures |r.lock.published| > 0 && |r.starts| > 0
    decreases |actions|
  {
    if |actions| == 0 then s else Run(Step(s, actions[0]), actions[1..])
  }

  ghost predicate AlwaysNarrow(s: State, actions: seq<Action>)
    requires |s.lock.published| > 0 && |s.starts| > 0
  {
    forall n :: 0 <= n <= |actions| ==> SeqLock.Narrow(Run(s, actions[..n]).lock)
  }

  lemma {:induction false} RunKeepsInv(s: State, actions: seq<Action>)
    requires Inv(s) && AlwaysNarrow(s, actions)
    ensures Inv(Run(s, actions))
    decreases |actions|
  {
    if |actions| != 0 {
      assert actions[..0] == [] && SeqLock.Narrow(Run(s, actions[..0]).lock);
      var next := Step(s, actions[0]);
      if Possible(s, actions[0]) {
        NextKeepsInv(s, actions[0]);
      }
      forall n | 0 <= n <= |actions| - 1
        ensures SeqLock.Narrow(Run(next, actions[1..][..n]).lock)
      {
        assert actions[..n + 1][1..] == actions[1..][..n];
        assert SeqLock.Narrow(Run(s, actions[..n + 1]).lock);
      }
      RunKeepsInv(next, actions[1..]);
    }
  }

  lemma InitialInv(s: State)
    requires Initial(s)
    ensures Inv(s)
  {
    assert Counted(s.log, s.starts, 0) == [];
    assert Fold(Counted(s.log, s.starts, 0)) == EMPTY;
  }

  /** Read() returns exactly the fold of consecutive records, in every interleaving. */
  lemma ReadReturnsFold(s: State, actions: seq<Action>, r: SeqLock.Returned)
    requires Initial(s) && AlwaysNarrow(s, actions)
    requires r in Run(s, actions).lock.returned
    ensures var e := Run(s, actions);
            && r.first == r.last < |e.starts| == |e.log| + 1
            && e.starts[r.first] <= r.first
            && r.copy == Words(Fold(e.log[e.starts[r.first]..r.first]))
  {
    InitialInv(s);
    RunKeepsInv(s, actions);
  }

  /** The statistics that a reader gets from the copied words. */
  function OfWords(w: SeqLock.Words): (s: Stats)
    requires |w| == 4 && forall i :: 0 <= i < 4 ==> w[i] >= 0
    ensures Words(s) == w
  {
    Stats(w[0], w[1], w[2], w[3])
  }

  /** Exact statistics and, unless they are empty, the true mean between the bounds. */
  predicate Truthful(records: seq<nat>, s: Stats) {
    && Exact(records, s) && (s.count != 0 <==> |records| > 0)
    && (if |records| == 0 then s.MeanCycles() == 0
        else s.min <= s.MeanCycles() <= s.max && s.MeanCycles() == Total(records) / |records|)
  }

  lemma FoldIsTruthful(records: seq<nat>)
    requires Cycles(records) && |records| < WRAP32
    ensures Truthful(records, Fold(records))
  {
    FoldIsExact(records);
    if |records| > 0 {
      MeanBetweenMinAndMax(records);
    }
  }

  /** What a reader makes of the words of truthful statistics. */
  predicate Reports(copy: SeqLock.Words, records: seq<nat>) {
    |copy| == 4 && (forall i :: 0 <= i < 4 ==> copy[i] >= 0) && Truthful(records, OfWords(copy))
  }

  lemma WordsReport(records: seq<nat>, s: Stats)
    requires Truthful(records, s)
    ensures Reports(Words(s), records)
  {
    assert OfWords(Words(s)) == s;
  }

  /**
   In every interleaving a read reports the records since the reset that was served last before them,
   if these are fewer than 2^32: count and sum, attained minimum and maximum, and the true mean.
   */
  lemma ReadIsExact(s: State, actions: seq<Action>, r: SeqLock.Returned)
    requires Initial(s) && AlwaysNarrow(s, actions) && r in Run(s, actions).lock.returned
    ensures var e := Run(s, actions);
            && r.first < |e.starts| && e.starts[r.first] <= r.first <= |e.log|
            && (r.first - e.starts[r.first] < WRAP32 ==> Reports(r.copy, e.log[e.starts[r.first]..r.first]))
  {
    ReadReturnsFold(s, actions, r);
    var e := Run(s, actions);
    assert Cycles(e.log) by {
      InitialInv(s);
      RunKeepsInv(s, actions);
    }
    if r.first - e.starts[r.first] < WRAP32 {
      var records := e.log[e.starts[r.first]..r.first];
      FoldIsTruthful(records);
      WordsReport(records, Fold(records));
    }
  }

  /**
   A served reset drops every record made before the request and at most the one record that was
   running at the request; a request that is not served yet has seen no other record end.
   */
  lemma ResetStartsAtRequest(s: State, actions: seq<Action>)
    requires Initial(s) && AlwaysNarrow(s, actions)
    ensures var e := Run(s, actions);
            && |e.starts| == |e.log| + 1
            && e.asked <= |e.log|
            && (if e.resetRequested then |e.log| <= e.asked + 1
                else e.asked <= e.starts[|e.log|] <= e.asked + 1)
  {
    InitialInv(s);
    RunKeepsInv(s, actions);
  }

  // ----- Without interruption ------------------------------------------------------------------

  function Locked(steps: seq<SeqLock.Action>): (r: seq<Action>) {
    if |steps| == 0 then [] else [Lock(steps[0])] + Locked(steps[1..])
  }

  predicate NoBegin(steps: seq<SeqLock.Action>) { forall i :: 0 <= i < |steps| ==> !steps[i].WriteBegin? }

  /** Steps of the lock do to the lock what they do to it alone, and nothing else. */
  lemma {:induction false} LockRuns(s: State, steps: seq<SeqLock.Action>)
    requires |s.lock.published| > 0 && |s.starts| > 0 && NoBegin(steps)
    ensures Run(s, Locked(steps)) == s.(lock := SeqLock.Run(s.lock, steps))
    decreases |steps|
  {
    if |steps| != 0 {
      assert !steps[0].WriteBegin?;
      assert Locked(steps)[1..] == Locked(steps[1..]);
      LockRuns(Step(s, Lock(steps[0])), steps[1..]);
    }
  }

  /** The words and the end of a write of the four statistics. */
  function Publishing(): (r: seq<SeqLock.Action>)
    ensures NoBegin(r)
  {
    var w := SeqLock.WriteWord;
    [w, w, w, w, SeqLock.WriteEnd]
  }

  lemma WritePublishes(s: SeqLock.State, v: SeqLock.Words)
    requires |s.published| > 0 && s.writer.WriterIdle? && |v| == |s.value| == 4
    ensures SeqLock.Run(SeqLock.Next(s, SeqLock.WriteBegin(v)), Publishing())
         == s.(sequence := s.sequence + 2, value := v, published := s.published + [v])
  {
    var w := SeqLock.WriteWord;
    var all := [SeqLock.WriteBegin(v)] + SeqLock.Repeat(w, 4) + [SeqLock.WriteEnd];
    assert SeqLock.Repeat(w, 1) == [w] && SeqLock.Repeat(w, 2) == [w, w] && SeqLock.Repeat(w, 3) == [w, w, w];
    assert SeqLock.Repeat(w, 4) == [w, w, w, w];
    assert all[1..] == Publishing();
    SeqLock.UndisturbedWrite(s, v);
  }

  /** The steps of a record in a row do what Record() does: one more record, published whole, and no request left. */
  lemma UndisturbedRecord(s: State, cycles: nat)
    requires |s.lock.published| > 0 && |s.starts| > 0 && |s.lock.value| == 4
    requires Possible(s, RecordLoad(cycles))
    ensures var n := Run(s, [RecordLoad(cycles)] + ([RecordUpdate] + Locked(Publishing())));
            var sum := Added(if s.resetRequested then EMPTY else s.accumulator, cycles);
            && n.accumulator == sum && n.lock.value == Words(sum) && n.lock.published == s.lock.published + [Words(sum)]
            && n.lock.sequence == s.lock.sequence + 2 && n.lock.writer.WriterIdle? && n.recording.NotRecording?
            && !n.resetRequested && n.log == s.log + [cycles] && n.lock.reader == s.lock.reader
  {
    var loaded := Next(s, RecordLoad(cycles));
    var updated := Next(loaded, RecordUpdate);
    var rest := [RecordUpdate] + Locked(Publishing());
    assert ([RecordLoad(cycles)] + rest)[1..] == rest && rest[1..] == Locked(Publishing());
    LockRuns(updated, Publishing());
    WritePublishes(s.lock, Words(updated.accumulator));
  }

  // ----- The probe as it runs on one core -----------------------------------------------------

  class Probe {
    var accumulator: Stats
    var published: Stats
    var sequence: nat
    var resetRequested: bool

    constructor ()
      ensures accumulator == published == EMPTY && sequence == 0 && !resetRequested
    {
      accumulator, published, sequence, resetRequested := EMPTY, EMPTY, 0, false;
    }

    method Record(cycles: nat)
      modifies this
      ensures published == accumulator == Added(if old(resetRequested) then EMPTY else old(accumulator), cycles)
      ensures !resetRequested && sequence == old(sequence) + 2
    {
      if resetRequested {
        resetRequested := false;
        accumulator := EMPTY;
      }
      var a := accumulator;
      accumulator := a.(min := if cycles < a.min then cycles else a.min,
                        max := if a.max < cycles then cycles else a.max,
                        sum := (a.sum + cycles) % WRAP64);
      accumulator := accumulator.(count := (accumulator.count + 1) % WRAP32);
      sequence := sequence + 1;
      published := accumulator;
      sequence := sequence + 1;
    }

    method Reset()
      modifies `resetRequested
      ensures resetRequested
    {
      resetRequested := true;
    }
  }
}
