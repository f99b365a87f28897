/** The reader goroutine of a read session: resume position, remaining limits and retry budget
    across reconnects (s2/read.go). The server chooses batches and how each attempt ends. */
module ReadLoop {
  import opened Options
  import opened Errors
  import opened Records

  /** Options that attempts pass on: whether a wait was given, the end timestamp, clamping, and whether a
      stream configuration was given. */
  datatype Others = Others(waits: bool, until: Option<nat>, clamp: Option<bool>, configures: bool)

  datatype ReadOptions = ReadOptions(seqNum: Option<nat>, timestamp: Option<nat>, tailOffset: Option<int>,
                                     count: Option<nat>, bytes: Option<nat>, others: Others)

  const NO_OPTIONS: ReadOptions := ReadOptions(None, None, None, None, None, Others(false, None, None, false))

  datatype AttemptEnd = AttemptEnd(progress: bool, budgeted: bool)

  datatype Phase =
    | Attempting(opts: Option<ReadOptions>, recordsBefore: nat, bytesBefore: nat)
    | Ended(err: Option<Err>)

  datatype Reader = Reader(
    base: Option<ReadOptions>, maxAttempts: int,
    nextSeq: nat, hasNextSeq: bool, recordsRead: nat, bytesRead: nat, consecutiveFailures: nat, phase: Phase,
    // history
    read: seq<SequencedRecord>, ends: seq<AttemptEnd>)

  datatype Action =
    | Batch(records: seq<SequencedRecord>)
    | EndsCleanly
    | ReconnectAdvised
    | Fails(err: Err)
    | CancelContext

  function MaxAttempts(r: Reader): (n: nat)
    ensures n >= 1
  {
    if r.maxAttempts < 1 then 1 else r.maxAttempts
  }

  function Less(limit: nat, used: nat): nat { if used >= limit then 0 else limit - used }

  /** `buildAttemptOptions`; how much of a wait is left depends on the clock and is not part of this model. */
  function AttemptOptions(r: Reader): Option<ReadOptions> {
    if r.base.None? && !r.hasNextSeq then None
    else
      var b := if r.base.Some? then r.base.value else NO_OPTIONS;
      var o := if r.hasNextSeq then b.(seqNum := Some(r.nextSeq), timestamp := None, tailOffset := None) else b;
      var o := o.(count := if b.count.Some? then Some(Less(b.count.value, r.recordsRead)) else None,
                  bytes := if b.bytes.Some? then Some(Less(b.bytes.value, r.bytesRead)) else None);
      if o == NO_OPTIONS then None else Some(o)
  }

  predicate LimitsReached(r: Reader) {
    r.base.Some? &&
    (|| (r.base.value.count.Some? && r.recordsRead >= r.base.value.count.value)
     || (r.base.value.bytes.Some? && r.bytesRead >= r.base.value.bytes.value))
  }

  /** The top of the loop: stop when the limits are used up, otherwise start an attempt. */
  function NextAttempt(r: Reader): Reader {
    r.(phase := if LimitsReached(r) then Ended(None) else Attempting(AttemptOptions(r), r.recordsRead, r.bytesRead))
  }

  function Start(base: Option<ReadOptions>, maxAttempts: int): Reader {
    NextAttempt(Reader(base, maxAttempts, 0, false, 0, 0, 0, Ended(None), [], []))
  }

  /** `advanceState` after a batch with records. */
  function Advance(r: Reader, records: seq<SequencedRecord>): Reader {
    if records == [] then r else
    r.(recordsRead := r.recordsRead + |records|,
       bytesRead := r.bytesRead + TotalBytes(records),
       nextSeq := records[|records| - 1].seqNum + 1, hasNextSeq := true,
       read := r.read + records)
  }

  predicate IsRetryableRead(e: Err) {
    if AsS2(e).Some? then IsRetryable(AsS2(e).value) else e.Network?
  }

  predicate Progressed(r: Reader)
    requires r.phase.Attempting?
  {
    r.recordsRead > r.phase.recordsBefore
  }

  /** Forgiveness and bookkeeping common to every way an attempt can end with a reason to go on. */
  function AfterAttempt(r: Reader, budgeted: bool): Reader
    requires r.phase.Attempting?
  {
    var forgiven := if Progressed(r) then 0 else r.consecutiveFailures;
    r.(consecutiveFailures := if budgeted && !Progressed(r) then forgiven + 1 else forgiven,
       ends := r.ends + [AttemptEnd(Progressed(r), budgeted)])
  }

  function Failed(r: Reader, err: Err): Reader
    requires r.phase.Attempting?
  {
    if IsServerDraining(err) then NextAttempt(AfterAttempt(r, false))
    else
      var f := AfterAttempt(r, true);
      if !IsRetryableRead(err) || f.consecutiveFailures >= MaxAttempts(r) then f.(phase := Ended(Some(err)))
      else NextAttempt(f)
  }

  function Step(r: Reader, a: Action): Reader {
    if r.phase.Ended? then r else
    match a
    case Batch(records) => Advance(r, records)
    case EndsCleanly => r.(phase := Ended(None))
    case ReconnectAdvised => NextAttempt(AfterAttempt(r, false))
    case Fails(err) => Failed(r, err)
    case CancelContext => r.(phase := Ended(None))
  }

  function Run(r: Reader, actions: seq<Action>): Reader
    decreases |actions|
  {
    if actions == [] then r else Step(Run(r, actions[..|actions| - 1]), actions[|actions| - 1])
  }

  // ---- the server ----

  /** Record `n` of the stream. */
  type Log = nat -> SequencedRecord

  ghost predicate Numbered(log: Log) { forall n: nat :: log(n).seqNum == n }

  /** Where the attempt's next record must come from: its start plus what it delivered so far. */
  function Expected(r: Reader): Option<nat>
    requires r.phase.Attempting? && r.recordsRead >= r.phase.recordsBefore
  {
    if r.phase.opts.Some? && r.phase.opts.value.seqNum.Some?
    then Some(r.phase.opts.value.seqNum.value + (r.recordsRead - r.phase.recordsBefore)) else None
  }

  /** A batch continues the attempt's records and keeps the attempt within its own limits. */
  ghost predicate LegalBatch(log: Log, r: Reader, records: seq<SequencedRecord>) {
    r.phase.Attempting? && r.recordsRead >= r.phase.recordsBefore && r.bytesRead >= r.phase.bytesBefore ==>
      && (Expected(r).Some? ==>
            forall i | 0 <= i < |records| :: records[i] == log(Expected(r).value + i))
      && (r.phase.opts.Some? && r.phase.opts.value.count.Some? ==>
            r.recordsRead - r.phase.recordsBefore + |records| <= r.phase.opts.value.count.value)
      && (r.phase.opts.Some? && r.phase.opts.value.bytes.Some? ==>
            r.bytesRead - r.phase.bytesBefore + TotalBytes(records) <= r.phase.opts.value.bytes.value)
  }

  ghost predicate LegalRun(log: Log, r: Reader, actions: seq<Action>) {
    forall k | 0 <= k < |actions| && actions[k].Batch? :: LegalBatch(log, Run(r, actions[..k]), actions[k].records)
  }

  // ---- invariants ----

  ghost predicate Consecutive(log: Log, start: nat, r: Reader) {
    && |r.read| == r.recordsRead
    && (forall i | 0 <= i < |r.read| :: r.read[i] == log(start + i))
    && (r.hasNextSeq <==> r.recordsRead > 0)
    && (r.hasNextSeq ==> r.nextSeq == start + r.recordsRead)
    && r.bytesRead == TotalBytes(r.read)
  }

  ghost predicate WithinLimits(r: Reader) {
    r.base.Some? ==>
      && (r.base.value.count.Some? ==> r.recordsRead <= r.base.value.count.value)
      && (r.base.value.bytes.Some? ==> r.bytesRead <= r.base.value.bytes.value)
  }

  /** The running attempt asked for the right start and for what was then left of the limits. */
  ghost predicate AttemptFits(start: nat, r: Reader) {
    r.phase.Attempting? ==>
      && r.phase.recordsBefore <= r.recordsRead && r.phase.bytesBefore <= r.bytesRead
      && r.phase.opts.Some? && r.base.Some?
      && r.phase.opts.value.seqNum == Some(start + r.phase.recordsBefore)
      && r.phase.opts.value.count ==
           (if r.base.value.count.Some? then Some(Less(r.base.value.count.value, r.phase.recordsBefore)) else None)
      && r.phase.opts.value.bytes ==
           (if r.base.value.bytes.Some? then Some(Less(r.base.value.bytes.value, r.phase.bytesBefore)) else None)
  }

  /** Budgeted failures since the last attempt that delivered a record, from the history alone. */
  function Streak(ends: seq<AttemptEnd>): nat {
    if ends == [] then 0
    else
      var last := ends[|ends| - 1];
      if last.progress then 0 else (if last.budgeted then 1 else 0) + Streak(ends[..|ends| - 1])
  }

  ghost predicate BudgetKept(r: Reader) {
    && r.consecutiveFailures == Streak(r.ends)
    && (r.phase.Attempting? ==> r.consecutiveFailures < MaxAttempts(r))
    && r.consecutiveFailures <= MaxAttempts(r)
  }

  lemma NextAttemptFits(log: Log, start: nat, r: Reader)
    requires r.base.Some? && r.base.value.seqNum == Some(start) && Consecutive(log, start, r)
    ensures AttemptFits(start, NextAttempt(r))
  {
  }

  lemma StartInv(log: Log, start: nat, base: Option<ReadOptions>, maxAttempts: int)
    requires base.Some? && base.value.seqNum == Some(start)
    ensures var r := Start(base, maxAttempts);
            Consecutive(log, start, r) && WithinLimits(r) && AttemptFits(start, r) && BudgetKept(r)
  {
    NextAttemptFits(log, start, Reader(base, maxAttempts, 0, false, 0, 0, 0, Ended(None), [], []));
  }

  lemma BatchConsecutive(log: Log, start: nat, r: Reader, records: seq<SequencedRecord>)
    requires Numbered(log) && Consecutive(log, start, r)
    requires forall i | 0 <= i < |records| :: records[i] == log(start + r.recordsRead + i)
    ensures Consecutive(log, start, Advance(r, records))
  {
    hide TotalBytes;
    var r' := Advance(r, records);
    if records != [] {
      assert records[|records| - 1] == log(start + r.recordsRead + (|records| - 1));
      TotalBytesAppend(r.read, records);
      assert forall i | 0 <= i < |r'.read| :: r'.read[i] == if i < |r.read| then r.read[i] else records[i - |r.read|];
    }
  }

  lemma BatchWithin(log: Log, start: nat, r: Reader, records: seq<SequencedRecord>)
    requires r.phase.Attempting? && LegalBatch(log, r, records) && WithinLimits(r) && AttemptFits(start, r)
    ensures WithinLimits(Advance(r, records)) && AttemptFits(start, Advance(r, records))
  {
    hide TotalBytes;
  }

  /** One batch of a conforming server extends the records without gap, repeat or excess. */
  lemma BatchInv(log: Log, start: nat, r: Reader, records: seq<SequencedRecord>)
    requires Numbered(log) && r.phase.Attempting? && LegalBatch(log, r, records)
    requires Consecutive(log, start, r) && WithinLimits(r) && AttemptFits(start, r)
    ensures var r' := Advance(r, records);
            Consecutive(log, start, r') && WithinLimits(r') && AttemptFits(start, r')
  {
    hide Advance, Consecutive, WithinLimits, Numbered, TotalBytes;
    assert Expected(r) == Some(start + r.recordsRead);
    BatchConsecutive(log, start, r, records);
    BatchWithin(log, start, r, records);
  }

  lemma AfterAttemptStreak(r: Reader, budgeted: bool)
    requires r.phase.Attempting? && r.consecutiveFailures == Streak(r.ends)
    ensures AfterAttempt(r, budgeted).consecutiveFailures == Streak(AfterAttempt(r, budgeted).ends)
  {
    var ends := AfterAttempt(r, budgeted).ends;
    assert ends[..|ends| - 1] == r.ends;
  }

  /** Whatever the start and whatever the server sends, a step keeps the failure count and the budget. */
  lemma BudgetStep(r: Reader, a: Action)
    requires BudgetKept(r)
    ensures BudgetKept(Step(r, a)) && Step(r, a).maxAttempts == r.maxAttempts
  {
    hide Streak, IsServerDraining, IsRetryableRead, AttemptOptions, TotalBytes;
    if r.phase.Attempting? {
      AfterAttemptStreak(r, false);
      AfterAttemptStreak(r, true);
    }
  }

  lemma {:induction false} BudgetRun(base: Option<ReadOptions>, maxAttempts: int, actions: seq<Action>)
    ensures var r := Run(Start(base, maxAttempts), actions); BudgetKept(r) && r.maxAttempts == maxAttempts
    decreases |actions|
  {
    hide Step;
    if actions != [] {
      var before := actions[..|actions| - 1];
      BudgetRun(base, maxAttempts, before);
      BudgetStep(Run(Start(base, maxAttempts), before), actions[|actions| - 1]);
    }
  }

  /** Closing the books on an attempt, and starting the next one. */
  lemma GoOnInv(log: Log, start: nat, r: Reader, budgeted: bool)
    requires r.base.Some? && r.base.value.seqNum == Some(start) && r.phase.Attempting?
    requires Consecutive(log, start, r) && WithinLimits(r)
    ensures var f := AfterAttempt(r, budgeted);
            f.base == r.base && Consecutive(log, start, f) && WithinLimits(f)
    ensures var r' := NextAttempt(AfterAttempt(r, budgeted));
            r'.base == r.base && Consecutive(log, start, r') && WithinLimits(r') && AttemptFits(start, r')
  {
    hide AttemptOptions;
    NextAttemptFits(log, start, AfterAttempt(r, budgeted));
  }

  lemma FailedInv(log: Log, start: nat, r: Reader, err: Err)
    requires r.base.Some? && r.base.value.seqNum == Some(start) && r.phase.Attempting?
    requires Consecutive(log, start, r) && WithinLimits(r)
    ensures var r' := Failed(r, err);
            r'.base == r.base && Consecutive(log, start, r') && WithinLimits(r') && AttemptFits(start, r')
  {
    hide IsServerDraining, IsRetryableRead, NextAttempt, AfterAttempt;
    GoOnInv(log, start, r, false);
    GoOnInv(log, start, r, true);
  }

  lemma StepInv(log: Log, start: nat, r: Reader, a: Action)
    requires r.base.Some? && r.base.value.seqNum == Some(start) && Numbered(log)
    requires a.Batch? ==> LegalBatch(log, r, a.records)
    requires Consecutive(log, start, r) && WithinLimits(r) && AttemptFits(start, r) && BudgetKept(r)
    ensures var r' := Step(r, a);
            r'.base == r.base && Consecutive(log, start, r') && WithinLimits(r') && AttemptFits(start, r') && BudgetKept(r')
  {
    hide BudgetKept, LegalBatch, NextAttempt, AfterAttempt, Failed, TotalBytes;
    BudgetStep(r, a);
    if r.phase.Attempting? {
      match a
      case Batch(records) => BatchInv(log, start, r, records);
      case ReconnectAdvised => GoOnInv(log, start, r, false);
      case Fails(err) => FailedInv(log, start, r, err);
      case _ =>
    }
  }

  /** For an absolute start and a server that keeps to each attempt's options, every run reads the
      stream's records consecutively from the start, within the total limits; and the failures
      charged to the budget since the last delivered record stay below MaxAttempts until the reader
      gives up on the last of them. */
  lemma {:induction false} ReadsConsecutively(log: Log, start: nat, base: Option<ReadOptions>, maxAttempts: int, actions: seq<Action>)
    requires base.Some? && base.value.seqNum == Some(start) && Numbered(log)
    requires LegalRun(log, Start(base, maxAttempts), actions)
    ensures var r := Run(Start(base, maxAttempts), actions);
            && r.base == base && Consecutive(log, start, r) && WithinLimits(r) && AttemptFits(start, r) && BudgetKept(r)
    decreases |actions|
  {
    hide Consecutive, WithinLimits, AttemptFits, BudgetKept, LegalBatch, Start, Step;
    if actions == [] {
      StartInv(log, start, base, maxAttempts);
      StartBase(base, maxAttempts);
    } else {
      var n := |actions| - 1;
      var before := actions[..n];
      assert forall k | 0 <= k < n :: before[..k] == actions[..k] && before[k] == actions[k];
      ReadsConsecutively(log, start, base, maxAttempts, before);
      assert actions[n].Batch? ==> LegalBatch(log, Run(Start(base, maxAttempts), actions[..n]), actions[n].records);
      StepInv(log, start, Run(Start(base, maxAttempts), before), actions[n]);
    }
  }

  lemma StartBase(base: Option<ReadOptions>, maxAttempts: int)
    ensures Start(base, maxAttempts).base == base
  {
  }

  /** In every run, from any start and with any server, fewer than MaxAttempts failures are charged without
      a delivered record in between while the reader goes on. It gives up on an error exactly when that is no
      drain notice and either not retryable or the failure numbered MaxAttempts since the last record. */
  lemma GivesUpOnBudget(base: Option<ReadOptions>, maxAttempts: int, actions: seq<Action>, a: Action)
    requires Run(Start(base, maxAttempts), actions).phase.Attempting?
    ensures var r := Run(Start(base, maxAttempts), actions);
            var n := if maxAttempts < 1 then 1 else maxAttempts;
            var r' := Step(r, a);
            && Streak(r.ends) < n
            && (r'.phase.Ended? && r'.phase.err.Some? ==> a.Fails? && r'.phase.err == Some(a.err))
            && (a.Fails? ==> (r'.phase == Ended(Some(a.err)) <==>
                                && !IsServerDraining(a.err)
                                && (IsRetryableRead(a.err) ==> !Progressed(r) && Streak(r'.ends) == Streak(r.ends) + 1 == n)))
  {
    hide IsServerDraining, IsRetryableRead, AttemptOptions, Start, Run;
    BudgetRun(base, maxAttempts, actions);
    var r := Run(Start(base, maxAttempts), actions);
    if a.Fails? { AfterAttemptStreak(r, true); }
  }

  /** A given limit has been read up to. */
  ghost predicate LimitUsedUp(base: Option<ReadOptions>, r: Reader) {
    base.Some? && (|| (base.value.count.Some? && r.recordsRead >= base.value.count.value)
                   || (base.value.bytes.Some? && r.bytesRead >= base.value.bytes.value))
  }

  /** The failure ends the session with its error. */
  ghost predicate GivenUpOn(maxAttempts: int, r: Reader, err: Err)
    requires r.phase.Attempting?
  {
    && !IsServerDraining(err)
    && (IsRetryableRead(err) ==> !Progressed(r) && Streak(r.ends) + 1 >= if maxAttempts < 1 then 1 else maxAttempts)
  }

  /** The attempt ended with a reason to read on: advice, a drain notice, or a failure that is forgiven. */
  ghost predicate ReadsOn(maxAttempts: int, r: Reader, a: Action)
    requires r.phase.Attempting?
  {
    a.ReconnectAdvised? || (a.Fails? && !GivenUpOn(maxAttempts, r, a.err))
  }

  /** The next attempt: nothing read is lost, and it resumes behind the last record or, without one, at the
      given start. */
  ghost predicate Resumed(base: Option<ReadOptions>, r: Reader, r': Reader) {
    && r'.read == r.read && r'.recordsRead == r.recordsRead && r'.bytesRead == r.bytesRead
    && r'.nextSeq == r.nextSeq && r'.hasNextSeq == r.hasNextSeq
    && r'.phase.Attempting? && r'.phase.recordsBefore == r.recordsRead && r'.phase.bytesBefore == r.bytesRead
    && (if r.hasNextSeq
        then r'.phase.opts.Some? && r'.phase.opts.value.seqNum == Some(r.nextSeq)
             && r'.phase.opts.value.timestamp.None? && r'.phase.opts.value.tailOffset.None?
        else (base.Some? && base.value != NO_OPTIONS ==>
                && r'.phase.opts.Some? && r'.phase.opts.value.seqNum == base.value.seqNum
                && r'.phase.opts.value.timestamp == base.value.timestamp && r'.phase.opts.value.tailOffset == base.value.tailOffset))
  }

  /** In every run an attempt ends the session without an error if and only if the server ended it, the
      context was cancelled, or the attempt ended with a reason to read on and a limit was used up; with a
      reason and no limit used up another attempt resumes where reading stopped. */
  lemma EndsWithoutErrorIff(base: Option<ReadOptions>, maxAttempts: int, actions: seq<Action>, a: Action)
    requires Run(Start(base, maxAttempts), actions).phase.Attempting?
    ensures var r := Run(Start(base, maxAttempts), actions);
            var r' := Step(r, a);
            && (r'.phase == Ended(None) <==>
                  a.EndsCleanly? || a.CancelContext? || (ReadsOn(maxAttempts, r, a) && LimitUsedUp(base, r)))
            && (ReadsOn(maxAttempts, r, a) && !LimitUsedUp(base, r) ==> Resumed(base, r, r'))
            && (a.Batch? ==> r'.phase == r.phase)
  {
    hide Start, Run, Step, BudgetKept, ReadsOn, LimitUsedUp, Resumed;
    BudgetRun(base, maxAttempts, actions);
    BaseRun(base, maxAttempts, actions);
    StepEnds(Run(Start(base, maxAttempts), actions), a);
  }

  lemma StepEnds(r: Reader, a: Action)
    requires r.phase.Attempting? && BudgetKept(r)
    ensures var r' := Step(r, a);
            && (r'.phase == Ended(None) <==>
                  a.EndsCleanly? || a.CancelContext? || (ReadsOn(r.maxAttempts, r, a) && LimitUsedUp(r.base, r)))
            && (ReadsOn(r.maxAttempts, r, a) && !LimitUsedUp(r.base, r) ==> Resumed(r.base, r, r'))
            && (a.Batch? ==> r'.phase == r.phase)
  {
    hide IsServerDraining, IsRetryableRead, Streak, TotalBytes;
  }

  /** The session begins with an attempt at the given start, unless a limit of zero leaves nothing to read. */
  lemma StartDecides(base: Option<ReadOptions>, maxAttempts: int)
    ensures var r := Start(base, maxAttempts);
            && r.read == [] && !r.hasNextSeq
            && (if LimitUsedUp(base, r) then r.phase == Ended(None) else Resumed(base, r, r))
  {
  }

  lemma StepBase(r: Reader, a: Action)
    ensures Step(r, a).base == r.base
  {
    hide IsServerDraining, IsRetryableRead, AttemptOptions, TotalBytes;
  }

  lemma {:induction false} BaseRun(base: Option<ReadOptions>, maxAttempts: int, actions: seq<Action>)
    ensures Run(Start(base, maxAttempts), actions).base == base
    decreases |actions|
  {
    hide Step, Start;
    if actions == [] {
      StartBase(base, maxAttempts);
    } else {
      BaseRun(base, maxAttempts, actions[..|actions| - 1]);
      StepBase(Run(Start(base, maxAttempts), actions[..|actions| - 1]), actions[|actions| - 1]);
    }
  }

  /** A relative start is resumed from the last record read, once there is one. */
  lemma ResumesAfterLastRecord(r: Reader)
    requires r.hasNextSeq && !LimitsReached(r)
    ensures NextAttempt(r).phase.Attempting? && NextAttempt(r).phase.opts.Some?
    ensures var o := NextAttempt(r).phase.opts.value;
            o.seqNum == Some(r.nextSeq) && o.timestamp.None? && o.tailOffset.None?
    ensures var o := NextAttempt(r).phase.opts.value;
            && (o.count.Some? <==> r.base.Some? && r.base.value.count.Some?)
            && (o.count.Some? ==> o.count.value + r.recordsRead == r.base.value.count.value && o.count.value > 0)
            && (o.bytes.Some? <==> r.base.Some? && r.base.value.bytes.Some?)
            && (o.bytes.Some? ==> o.bytes.value + r.bytesRead == r.base.value.bytes.value && o.bytes.value > 0)
  {
  }

  /** The reader object: the fields the loop updates between and during attempts. */
  class StreamReader {
    const base: Option<ReadOptions>
    const maxAttempts: int
    var nextSeq: nat
    var hasNextSeq: bool
    var recordsRead: nat
    var bytesRead: nat
    var consecutiveFailures: nat
    var phase: Phase
    ghost var read: seq<SequencedRecord>
    ghost var ends: seq<AttemptEnd>

    ghost function Abs(): Reader
      reads this
    {
      Reader(base, maxAttempts, nextSeq, hasNextSeq, recordsRead, bytesRead, consecutiveFailures, phase, read, ends)
    }

    constructor (base: Option<ReadOptions>, maxAttempts: int)
      ensures Abs() == Start(base, maxAttempts)
    {
      this.base, this.maxAttempts := base, maxAttempts;
      nextSeq, hasNextSeq, recordsRead, bytesRead, consecutiveFailures := 0, false, 0, 0, 0;
      read, ends := [], [];
      phase := Ended(None);
      new;
      BeginAttempt();
    }

    method ReachedLimits() returns (b: bool)
      ensures b == LimitsReached(Abs())
    {
      if base.None? { return false; }
      if base.value.count.Some? && recordsRead >= base.value.count.value { return true; }
      return base.value.bytes.Some? && bytesRead >= base.value.bytes.value;
    }

    method BuildAttemptOptions() returns (opts: Option<ReadOptions>)
      ensures opts == AttemptOptions(Abs())
    {
      var o: ReadOptions;
      if base.Some? {
        o := base.value;
      } else if hasNextSeq {
        o := NO_OPTIONS;
      } else {
        return None;
      }
      if hasNextSeq { o := o.(seqNum := Some(nextSeq), timestamp := None, tailOffset := None); }
      if base.Some? {
        if base.value.count.Some? {
          var remaining := 0;
          if recordsRead < base.value.count.value { remaining := base.value.count.value - recordsRead; }
          o := o.(count := Some(remaining));
        }
        if base.value.bytes.Some? {
          var remaining := 0;
          if bytesRead < base.value.bytes.value { remaining := base.value.bytes.value - bytesRead; }
          o := o.(bytes := Some(remaining));
        }
      }
      if o.seqNum.None? && o.timestamp.None? && o.tailOffset.None? && o.count.None? && o.bytes.None?
        && !o.others.waits && o.others.until.None? && o.others.clamp.None? && !o.others.configures { return None; }
      return Some(o);
    }

    method BeginAttempt()
      modifies this`phase
      ensures Abs() == NextAttempt(old(Abs()))
    {
      var opts := BuildAttemptOptions();
      var done := ReachedLimits();
      phase := if done then Ended(None) else Attempting(opts, recordsRead, bytesRead);
    }

    /** The accounting of one batch, before command records are filtered out of its delivery. */
    method HandleBatch(records: seq<SequencedRecord>)
      requires phase.Attempting?
      modifies this`nextSeq, this`hasNextSeq, this`recordsRead, this`bytesRead, this`read
      ensures Abs() == Step(old(Abs()), Batch(records))
    {
      if |records| == 0 { return; }
      var metered := 0;
      for i := 0 to |records|
        invariant metered == TotalBytes(records[..i]) && unchanged(this)
      {
        var b := MeterRecord(records[i].headers, records[i].body);
        metered := metered + b;
        assert records[..i + 1] == records[..i] + [records[i]];
        TotalBytesAppend(records[..i], [records[i]]);
        assert TotalBytes([records[i]]) == ReadBytes(records[i]) by { assert [records[i]][1..] == []; }
      }
      assert records[..|records|] == records;
      recordsRead := recordsRead + |records|;
      bytesRead := bytesRead + metered;
      nextSeq, hasNextSeq := records[|records| - 1].seqNum + 1, true;
      read := read + records;
    }

    /** The loop body after `runOnce` returned with an error or an advice. */
    method AttemptOver(reason: Action)
      requires phase.Attempting? && (reason.Fails? || reason.ReconnectAdvised?)
      modifies this`consecutiveFailures, this`phase, this`ends
      ensures Abs() == Step(old(Abs()), reason)
    {
      hide IsServerDraining, IsRetryableRead, AttemptOptions, LimitsReached;
      var progressed := recordsRead > phase.recordsBefore;
      if progressed { consecutiveFailures := 0; }
      var free := reason.ReconnectAdvised? || IsServerDraining(reason.err);
      ends := ends + [AttemptEnd(progressed, !free)];
      if free {
        BeginAttempt();
        return;
      }
      if !progressed { consecutiveFailures := consecutiveFailures + 1; }
      var limit := if maxAttempts < 1 then 1 else maxAttempts;
      if !IsRetryableRead(reason.err) || consecutiveFailures >= limit {
        phase := Ended(Some(reason.err));
        return;
      }
      BeginAttempt();
    }
  }
}
