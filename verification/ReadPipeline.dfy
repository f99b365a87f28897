/** The whole read path: the reconnecting reader of `ReadLoop` feeding the session of `ReadSessions`.
    A batch is one step of both, and so is the end of an attempt (s2/read.go, s2/read_session.go). */
module ReadPipeline {
  import opened Options
  import opened Errors
  import opened Records
  import L = ReadLoop
  import S = ReadSessions

  datatype State = State(r: L.Reader, s: S.State)

  datatype Action =
    | Frame(records: seq<SequencedRecord>, tail: Option<S.Position>)
    | AttemptEnds(how: L.Action)
    | Elsewhere(a: S.Action)      // delivery, consumer, futures

  function Init(base: Option<L.ReadOptions>, maxAttempts: int, ignoreCommands: bool): State {
    var r := L.Start(base, maxAttempts);
    State(r, if r.phase.Ended? then S.Step(S.Init(ignoreCommands), S.Stop(r.phase.err)) else S.Init(ignoreCommands))
  }

  predicate CanRead(st: State) { st.r.phase.Attempting? && st.s.reader.Idle? }

  /** What the session's reader does after an attempt: stop, or fall behind and try again. */
  function Afterwards(r: L.Reader): S.Action {
    if r.phase.Ended? then S.Stop(r.phase.err) else S.Reconnect
  }

  predicate IsElsewhere(a: S.Action) { !a.Frame? && !a.Stop? && !a.Reconnect? && !a.Abandon? }

  function Step(st: State, a: Action): State {
    match a
    case Frame(records, tail) =>
      if CanRead(st) then State(L.Step(st.r, L.Batch(records)), S.Step(st.s, S.Frame(records, tail))) else st
    case AttemptEnds(how) =>
      if how.Batch? || st.r.phase.Ended? then st
      else if how.CancelContext? then State(L.Step(st.r, how), S.Step(st.s, S.Abandon))
      else if !CanRead(st) then st
      else var r := L.Step(st.r, how); State(r, S.Step(st.s, Afterwards(r)))
    case Elsewhere(b) => if IsElsewhere(b) then st.(s := S.Step(st.s, b)) else st
  }

  function Run(st: State, actions: seq<Action>): State
    decreases |actions|
  {
    if actions == [] then st else Step(Run(st, actions[..|actions| - 1]), actions[|actions| - 1])
  }

  /** A conforming server: batches continue the attempt within its limits, and a batch without records
      reports a tail only from there. */
  ghost predicate Legal(log: L.Log, st: State, a: Action) {
    a.Frame? && CanRead(st) ==>
      && L.LegalBatch(log, st.r, a.records)
      && (a.records == [] && a.tail.Some? && st.r.recordsRead >= st.r.phase.recordsBefore && L.Expected(st.r).Some? ==>
            a.tail.value.seqNum == L.Expected(st.r).value)
  }

  ghost predicate LegalRun(log: L.Log, st: State, actions: seq<Action>)
    decreases |actions|
  {
    actions != [] ==>
      var before := actions[..|actions| - 1];
      LegalRun(log, st, before) && Legal(log, Run(st, before), actions[|actions| - 1])
  }

  // ---- the two machines agree ----

  ghost predicate ReaderFine(log: L.Log, start: nat, base: Option<L.ReadOptions>, r: L.Reader) {
    && r.base == base && L.Consecutive(log, start, r) && L.WithinLimits(r) && L.AttemptFits(start, r) && L.BudgetKept(r)
  }

  ghost predicate Agree(start: nat, st: State) {
    st.s.fetched == st.r.read && st.s.cursor <= start + st.r.recordsRead
  }

  ghost predicate Inv(log: L.Log, start: nat, base: Option<L.ReadOptions>, st: State) {
    ReaderFine(log, start, base, st.r) && Agree(start, st) && S.Inv(st.s) && S.Ordered(st.s)
  }

  lemma OthersReadNothing(r: L.Reader, a: L.Action)
    requires !a.Batch?
    ensures L.Step(r, a).read == r.read && L.Step(r, a).recordsRead == r.recordsRead
  {
    hide L.AttemptOptions, L.LimitsReached, IsServerDraining, L.IsRetryableRead;
  }

  /** What a conforming server sends continues the session's sequence. */
  lemma LegalContinues(log: L.Log, start: nat, base: Option<L.ReadOptions>, st: State, records: seq<SequencedRecord>, tail: Option<S.Position>)
    requires L.Numbered(log) && ReaderFine(log, start, base, st.r) && Agree(start, st) && CanRead(st) && Legal(log, st, Frame(records, tail))
    ensures S.InSequence(st.s.cursor, records, tail)
    ensures Agree(start, State(L.Step(st.r, L.Batch(records)), S.Step(st.s, S.Frame(records, tail))))
  {
    hide Agree, S.InSequence, S.Step, L.Step;
    NextRecords(log, start, base, st, records, tail);
    InSequenceFrom(start, st, records, tail);
    FrameAgrees(start, st, records, tail);
  }

  /** The batch carries the stream's next records, or the tail there. */
  ghost predicate Continues(n: nat, records: seq<SequencedRecord>, tail: Option<S.Position>) {
    && (forall i | 0 <= i < |records| :: records[i].seqNum == n + i)
    && (records == [] && tail.Some? ==> tail.value.seqNum == n)
  }

  lemma NextRecords(log: L.Log, start: nat, base: Option<L.ReadOptions>, st: State, records: seq<SequencedRecord>, tail: Option<S.Position>)
    requires L.Numbered(log) && ReaderFine(log, start, base, st.r) && CanRead(st) && Legal(log, st, Frame(records, tail))
    ensures Continues(start + st.r.recordsRead, records, tail)
  {
    hide TotalBytes, L.BudgetKept, L.WithinLimits, L.Consecutive;
    var n := start + st.r.recordsRead;
    assert L.Expected(st.r) == Some(n);
    assert forall i | 0 <= i < |records| :: records[i] == log(n + i) && records[i].seqNum == n + i;
  }

  lemma InSequenceFrom(start: nat, st: State, records: seq<SequencedRecord>, tail: Option<S.Position>)
    requires Agree(start, st) && Continues(start + st.r.recordsRead, records, tail)
    ensures S.InSequence(st.s.cursor, records, tail)
  {
  }

  lemma FrameAgrees(start: nat, st: State, records: seq<SequencedRecord>, tail: Option<S.Position>)
    requires Agree(start, st) && CanRead(st) && Continues(start + st.r.recordsRead, records, tail)
    ensures Agree(start, State(L.Step(st.r, L.Batch(records)), S.Step(st.s, S.Frame(records, tail))))
  {
    hide TotalBytes, S.Kept, S.BatchCaughtUp, S.SetBehind;
    assert st.s.fetched + [] == st.s.fetched;
  }

  lemma FrameInv(log: L.Log, start: nat, base: Option<L.ReadOptions>, st: State, a: Action)
    requires base.Some? && base.value.seqNum == Some(start) && L.Numbered(log)
    requires Inv(log, start, base, st) && Legal(log, st, a) && a.Frame?
    ensures Inv(log, start, base, Step(st, a))
  {
    hide L.Consecutive, L.WithinLimits, L.AttemptFits, L.BudgetKept, L.LegalBatch, L.Step, L.Numbered, S.Inv, S.Ordered, S.Step, S.InSequence, Agree, L.Expected;
    if CanRead(st) {
      L.StepInv(log, start, st.r, L.Batch(a.records));
      LegalContinues(log, start, base, st, a.records, a.tail);
      S.StepInv(st.s, S.Frame(a.records, a.tail));
      S.StepOrdered(st.s, S.Frame(a.records, a.tail));
    }
  }

  lemma SessionMoves(start: nat, st: State, r: L.Reader, a: S.Action)
    requires S.Inv(st.s) && S.Ordered(st.s) && Agree(start, st) && !a.Frame? && r.read == st.r.read && r.recordsRead == st.r.recordsRead
    ensures S.Inv(S.Step(st.s, a)) && S.Ordered(S.Step(st.s, a)) && Agree(start, State(r, S.Step(st.s, a)))
  {
    hide S.Inv, S.Ordered, S.Step;
    S.StepInv(st.s, a);
    S.StepOrdered(st.s, a);
    S.StepSameSource(st.s, a);
  }

  lemma StepInv(log: L.Log, start: nat, base: Option<L.ReadOptions>, st: State, a: Action)
    requires base.Some? && base.value.seqNum == Some(start) && L.Numbered(log)
    requires Inv(log, start, base, st) && Legal(log, st, a)
    ensures Inv(log, start, base, Step(st, a))
  {
    hide L.Consecutive, L.WithinLimits, L.AttemptFits, L.BudgetKept, L.LegalBatch, L.Step, L.Numbered, S.Inv, S.Ordered, S.Step, Agree, L.Expected;
    match a
    case Frame(_, _) => FrameInv(log, start, base, st, a);
    case AttemptEnds(how) =>
      if !how.Batch? {
        L.StepInv(log, start, st.r, how);
        OthersReadNothing(st.r, how);
        var r := L.Step(st.r, how);
        SessionMoves(start, st, r, if how.CancelContext? then S.Abandon else Afterwards(r));
      }
    case Elsewhere(b) => if IsElsewhere(b) { SessionMoves(start, st, st.r, b); }
  }

  lemma InitInv(log: L.Log, start: nat, base: Option<L.ReadOptions>, maxAttempts: int, ignoreCommands: bool)
    requires base.Some? && base.value.seqNum == Some(start)
    ensures Inv(log, start, base, Init(base, maxAttempts, ignoreCommands))
  {
    hide S.Inv, S.Ordered, S.Step, L.AttemptFits, L.BudgetKept, L.WithinLimits, L.AttemptOptions;
    L.StartInv(log, start, base, maxAttempts);
    L.StartBase(base, maxAttempts);
    S.InitInv(ignoreCommands);
    var r := L.Start(base, maxAttempts);
    assert Agree(start, State(r, S.Init(ignoreCommands)));
    if r.phase.Ended? { SessionMoves(start, State(r, S.Init(ignoreCommands)), r, S.Stop(r.phase.err)); }
  }

  lemma {:induction false} RunInv(log: L.Log, start: nat, base: Option<L.ReadOptions>, maxAttempts: int, ignoreCommands: bool, actions: seq<Action>)
    requires base.Some? && base.value.seqNum == Some(start) && L.Numbered(log)
    requires LegalRun(log, Init(base, maxAttempts, ignoreCommands), actions)
    ensures Inv(log, start, base, Run(Init(base, maxAttempts, ignoreCommands), actions))
    decreases |actions|
  {
    hide Inv, Step, Init, Legal;
    if actions == [] {
      InitInv(log, start, base, maxAttempts, ignoreCommands);
    } else {
      var before := actions[..|actions| - 1];
      RunInv(log, start, base, maxAttempts, ignoreCommands, before);
      StepInv(log, start, base, Run(Init(base, maxAttempts, ignoreCommands), before), actions[|actions| - 1]);
    }
  }

  lemma StepSameFilter(st: State, a: Action)
    ensures Step(st, a).s.ignoreCommands == st.s.ignoreCommands
  {
    hide S.Step, L.Step;
    match a
    case Frame(records, tail) => S.StepSameSource(st.s, S.Frame(records, tail));
    case AttemptEnds(how) =>
      S.StepSameSource(st.s, S.Abandon);
      S.StepSameSource(st.s, Afterwards(L.Step(st.r, how)));
    case Elsewhere(b) => S.StepSameSource(st.s, b);
  }

  lemma {:induction false} RunSameFilter(base: Option<L.ReadOptions>, maxAttempts: int, ignoreCommands: bool, actions: seq<Action>)
    ensures Run(Init(base, maxAttempts, ignoreCommands), actions).s.ignoreCommands == ignoreCommands
    decreases |actions|
  {
    hide Step, L.Start, S.Step;
    if actions == [] {
      S.StepSameSource(S.Init(ignoreCommands), Afterwards(L.Start(base, maxAttempts)));
    } else {
      RunSameFilter(base, maxAttempts, ignoreCommands, actions[..|actions| - 1]);
      StepSameFilter(Run(Init(base, maxAttempts, ignoreCommands), actions[..|actions| - 1]), actions[|actions| - 1]);
    }
  }

  // ---- what a caller gets ----

  /** The `n` records of the stream from `start` on. */
  function Segment(log: L.Log, start: nat, n: nat): seq<SequencedRecord> {
    seq(n, i requires 0 <= i < n => log(start + i))
  }

  /** From an absolute start and a conforming server, through any failures, drains, advised reconnects,
      filtering and interleaving, `Next` has returned a prefix of the stream from the start on, within
      the limits; when it ends with nothing lost to cancellation, it has returned all that was read. */
  lemma ReturnsTheStream(log: L.Log, start: nat, base: Option<L.ReadOptions>, maxAttempts: int, ignoreCommands: bool, actions: seq<Action>)
    requires base.Some? && base.value.seqNum == Some(start) && L.Numbered(log)
    requires LegalRun(log, Init(base, maxAttempts, ignoreCommands), actions)
    ensures var st := Run(Init(base, maxAttempts, ignoreCommands), actions);
            var all := S.Kept(ignoreCommands, Segment(log, start, st.r.recordsRead));
            && st.s.returned <= all
            && (st.s.closed && st.s.dropped == [] ==> st.s.returned == all)
            && (base.value.count.Some? ==> st.r.recordsRead <= base.value.count.value)
            && (base.value.bytes.Some? ==> TotalBytes(Segment(log, start, st.r.recordsRead)) <= base.value.bytes.value)
  {
    hide Inv, Init, Run, LegalRun, S.Kept, L.Numbered;
    var st := Run(Init(base, maxAttempts, ignoreCommands), actions);
    RunInv(log, start, base, maxAttempts, ignoreCommands, actions);
    RunSameFilter(base, maxAttempts, ignoreCommands, actions);
    InvReturns(log, start, base, st);
  }

  lemma InvReturns(log: L.Log, start: nat, base: Option<L.ReadOptions>, st: State)
    requires Inv(log, start, base, st) && base.Some?
    ensures var all := S.Kept(st.s.ignoreCommands, Segment(log, start, st.r.recordsRead));
            && st.s.returned <= all
            && (st.s.closed && st.s.dropped == [] ==> st.s.returned == all)
            && (base.value.count.Some? ==> st.r.recordsRead <= base.value.count.value)
            && (base.value.bytes.Some? ==> TotalBytes(Segment(log, start, st.r.recordsRead)) <= base.value.bytes.value)
  {
    hide S.Inv, S.Ordered, S.Kept, TotalBytes, L.AttemptFits, L.BudgetKept;
    assert Segment(log, start, st.r.recordsRead) == st.r.read;
    S.InvDelivers(st.s);
    assert st.s.returned + st.s.pending + S.Buffered(st.s.channel) + S.Unsent(st.s)
        == st.s.returned + (st.s.pending + S.Buffered(st.s.channel) + S.Unsent(st.s));
    if st.s.closed && st.s.dropped == [] {
      S.InvEnds(st.s);
      EndedUnsent(st.s);
      assert st.s.sent + [] == st.s.sent;
    }
  }

  lemma EndedUnsent(s: S.State)
    requires S.Inv(s) && s.closed
    ensures S.Unsent(s) == s.dropped
  {
    hide S.Accounted, S.Conserved, S.ReaderWaits, S.CaughtUpEmpty, S.Holding, S.FuturesSettleOnce;
  }

  /** `NextReadPosition` then splits the stream: exactly the records not returned lie ahead of it. */
  lemma PositionSplitsTheStream(log: L.Log, start: nat, base: Option<L.ReadOptions>, maxAttempts: int, ignoreCommands: bool, actions: seq<Action>, i: nat)
    requires base.Some? && base.value.seqNum == Some(start) && L.Numbered(log)
    requires LegalRun(log, Init(base, maxAttempts, ignoreCommands), actions)
    requires i < |S.Kept(ignoreCommands, Run(Init(base, maxAttempts, ignoreCommands), actions).r.read)|
    ensures var st := Run(Init(base, maxAttempts, ignoreCommands), actions);
            S.Kept(ignoreCommands, st.r.read)[i].seqNum < S.At(st.s.position) <==> i < |st.s.returned|
  {
    hide Init, Run, LegalRun, S.Kept, L.Numbered, ReaderFine, S.Inv, S.Ordered;
    var st := Run(Init(base, maxAttempts, ignoreCommands), actions);
    RunInv(log, start, base, maxAttempts, ignoreCommands, actions);
    RunSameFilter(base, maxAttempts, ignoreCommands, actions);
    S.InvSplits(st.s, i);
  }

  // ---- how a session ends ----

  /** The session's reader runs exactly while attempts do, and stopped with the reader's error. */
  ghost predicate Linked(base: Option<L.ReadOptions>, st: State) {
    && S.Inv(st.s) && st.r.base == base && L.BudgetKept(st.r)
    && (st.r.phase.Attempting? <==> S.Running(st.s.reader))
    && (st.r.phase.Ended? ==> st.s.reason == st.r.phase.err)
  }

  predicate Cancelled(actions: seq<Action>) { AttemptEnds(L.CancelContext) in actions }

  predicate ServerEnded(actions: seq<Action>) { AttemptEnds(L.EndsCleanly) in actions }

  /** A session that stopped without an error was cancelled, was ended by the server, or used up a limit;
      without a cancellation nothing was dropped. */
  ghost predicate EndedRightly(base: Option<L.ReadOptions>, actions: seq<Action>, st: State) {
    && (st.r.phase == L.Ended(None) ==> Cancelled(actions) || ServerEnded(actions) || L.LimitUsedUp(base, st.r))
    && (!Cancelled(actions) ==> st.s.dropped == [])
  }

  /** What a step of the session means for its reader. */
  ghost predicate ReaderMoves(s: S.State, a: S.Action, t: S.State) {
    if a.Stop? && s.reader.Idle? then !S.Running(t.reader) && t.reason == a.why && t.dropped == s.dropped
    else if a.Abandon? && S.Running(s.reader) then !S.Running(t.reader) && t.reason.None?
    else S.Running(t.reader) == S.Running(s.reader) && t.reason == s.reason && t.dropped == s.dropped
  }

  lemma SessionReader(s: S.State, a: S.Action)
    ensures ReaderMoves(s, a, S.Step(s, a))
  {
    hide S.Step, ReaderMoves;
    match a
    case Receive => ReceiveReader(s);
    case Yield => YieldReader(s);
    case Frame(records, tail) => FrameReader(s, records, tail);
    case Send => SendReader(s);
    case Stop(_) => StopReader(s, a);
    case Abandon => StopReader(s, a);
    case _ => QuietReader(s, a);
  }

  lemma FrameReader(s: S.State, records: seq<SequencedRecord>, tail: Option<S.Position>)
    ensures ReaderMoves(s, S.Frame(records, tail), S.Step(s, S.Frame(records, tail)))
  {
    hide S.DoFrame, S.Running;
    S.FrameParts(s, records, tail);
    IsRunning(s.reader, S.DoFrame(s, records, tail).reader);
  }

  lemma IsRunning(a: S.ReaderAt, b: S.ReaderAt)
    requires b == a || (a.Idle? && b.Ready?)
    ensures S.Running(a) == S.Running(b)
  {
  }

  lemma SendReader(s: S.State)
    ensures ReaderMoves(s, S.Send, S.Step(s, S.Send))
  {
  }

  lemma StopReader(s: S.State, a: S.Action)
    requires a.Stop? || a.Abandon?
    ensures ReaderMoves(s, a, S.Step(s, a))
  {
    hide S.End;
  }

  lemma QuietReader(s: S.State, a: S.Action)
    requires !a.Receive? && !a.Yield? && !a.Frame? && !a.Send? && !a.Stop? && !a.Abandon?
    ensures ReaderMoves(s, a, S.Step(s, a))
  {
    hide S.SetBehind, S.End, S.AddFuture, S.DoChannelEnds;
    match a
    case ChannelEnds => EndReader(s);
    case Resume => ResumeReader(s);
    case SendError => EndingReader(s, a);
    case CloseRecords => EndingReader(s, a);
    case CloseErrors => EndingReader(s, a);
    case _ =>
  }

  lemma ResumeReader(s: S.State)
    ensures ReaderMoves(s, S.Resume, S.Step(s, S.Resume))
  {
  }

  lemma EndingReader(s: S.State, a: S.Action)
    requires a.SendError? || a.CloseRecords? || a.CloseErrors?
    ensures ReaderMoves(s, a, S.Step(s, a))
  {
  }

  lemma EndReader(s: S.State)
    ensures var t := S.DoChannelEnds(s); t.reader == s.reader && t.reason == s.reason && t.dropped == s.dropped
  {
    hide S.End;
  }

  lemma ReceiveReader(s: S.State)
    ensures ReaderMoves(s, S.Receive, S.Step(s, S.Receive))
  {
    hide S.SetCaughtUp;
  }

  lemma YieldReader(s: S.State)
    ensures ReaderMoves(s, S.Yield, S.Step(s, S.Yield))
  {
    hide S.SetCaughtUp;
  }

  lemma StepLinked(base: Option<L.ReadOptions>, before: seq<Action>, st: State, a: Action)
    requires Linked(base, st) && EndedRightly(base, before, st)
    ensures Linked(base, Step(st, a)) && EndedRightly(base, before + [a], Step(st, a))
  {
    hide S.Inv, S.Step, L.Step, L.BudgetKept, L.LimitUsedUp, L.ReadsOn, L.Resumed;
    match a
    case Frame(records, tail) =>
      if CanRead(st) {
        S.StepInv(st.s, S.Frame(records, tail));
        SessionReader(st.s, S.Frame(records, tail));
        ReaderStep(base, st.r, L.Batch(records));
      }
    case AttemptEnds(how) =>
      if !how.Batch? && st.r.phase.Attempting? {
        ReaderStep(base, st.r, how);
        var b := if how.CancelContext? then S.Abandon else Afterwards(L.Step(st.r, how));
        S.StepInv(st.s, b);
        SessionReader(st.s, b);
        assert a in before + [a];
      }
    case Elsewhere(b) =>
      S.StepInv(st.s, b);
      SessionReader(st.s, b);
  }

  lemma ReaderStep(base: Option<L.ReadOptions>, r: L.Reader, a: L.Action)
    requires r.base == base && L.BudgetKept(r) && r.phase.Attempting?
    ensures var r' := L.Step(r, a);
            && r'.base == base && L.BudgetKept(r') && (a.Batch? ==> r'.phase.Attempting?)
            && (a.CancelContext? || a.EndsCleanly? ==> r'.phase == L.Ended(None))
            && (r'.phase == L.Ended(None) ==> a.CancelContext? || a.EndsCleanly? || L.LimitUsedUp(base, r'))
  {
    L.BudgetStep(r, a);
    L.StepBase(r, a);
    L.StepEnds(r, a);
    hide L.BudgetKept, L.Resumed, L.ReadsOn, L.AttemptOptions, TotalBytes, IsServerDraining, L.IsRetryableRead, L.Progressed;
  }

  lemma InitLinked(base: Option<L.ReadOptions>, maxAttempts: int, ignoreCommands: bool)
    ensures Linked(base, Init(base, maxAttempts, ignoreCommands)) && EndedRightly(base, [], Init(base, maxAttempts, ignoreCommands))
  {
    hide S.Inv, S.Step, L.AttemptOptions;
    var r := L.Start(base, maxAttempts);
    L.BudgetRun(base, maxAttempts, []);
    S.InitInv(ignoreCommands);
    L.StartDecides(base, maxAttempts);
    if r.phase.Ended? {
      S.StepInv(S.Init(ignoreCommands), S.Stop(r.phase.err));
      SessionReader(S.Init(ignoreCommands), S.Stop(r.phase.err));
    }
  }

  lemma {:induction false} RunLinked(base: Option<L.ReadOptions>, maxAttempts: int, ignoreCommands: bool, actions: seq<Action>)
    ensures var st := Run(Init(base, maxAttempts, ignoreCommands), actions);
            Linked(base, st) && EndedRightly(base, actions, st)
    decreases |actions|
  {
    hide Linked, EndedRightly, Step, Init;
    if actions == [] {
      InitLinked(base, maxAttempts, ignoreCommands);
    } else {
      var before := actions[..|actions| - 1];
      RunLinked(base, maxAttempts, ignoreCommands, before);
      StepLinked(base, before, Run(Init(base, maxAttempts, ignoreCommands), before), actions[|actions| - 1]);
      assert actions == before + [actions[|actions| - 1]];
    }
  }

  /** Whatever the server does: when `Next` ends without an error, the session was cancelled, the server
      ended it, or a limit is used up; when it ends with one, the reader gave up with that error. */
  lemma EndsForAReason(base: Option<L.ReadOptions>, maxAttempts: int, ignoreCommands: bool, actions: seq<Action>)
    ensures var st := Run(Init(base, maxAttempts, ignoreCommands), actions);
            && (st.s.closed && st.s.err.None? ==> Cancelled(actions) || ServerEnded(actions) || L.LimitUsedUp(base, st.r))
            && (st.s.closed ==> st.r.phase == L.Ended(st.s.err))
  {
    hide Run, Init, L.LimitUsedUp, L.BudgetKept;
    RunLinked(base, maxAttempts, ignoreCommands, actions);
    var st := Run(Init(base, maxAttempts, ignoreCommands), actions);
    if st.s.closed { ClosedReason(st.s); }
  }

  lemma ClosedReason(s: S.State)
    requires S.Inv(s) && s.closed
    ensures s.err == s.reason && !S.Running(s.reader)
  {
    hide S.Accounted, S.Conserved, S.ReaderWaits, S.CaughtUpEmpty, S.Holding, S.FuturesSettleOnce;
  }

  /** So from an absolute start, with a conforming server that does not end the session itself and no
      cancellation, `Next` ends without an error only when it has returned the stream up to exactly the
      given count, or exactly the given bytes. */
  lemma ReturnsTheWholeLimit(log: L.Log, start: nat, base: Option<L.ReadOptions>, maxAttempts: int, ignoreCommands: bool, actions: seq<Action>)
    requires base.Some? && base.value.seqNum == Some(start) && L.Numbered(log)
    requires LegalRun(log, Init(base, maxAttempts, ignoreCommands), actions) && !Cancelled(actions) && !ServerEnded(actions)
    requires var st := Run(Init(base, maxAttempts, ignoreCommands), actions); st.s.closed && st.s.err.None?
    ensures var st := Run(Init(base, maxAttempts, ignoreCommands), actions);
            && st.s.returned == S.Kept(ignoreCommands, Segment(log, start, st.r.recordsRead))
            && (|| base.value.count == Some(st.r.recordsRead)
                || base.value.bytes == Some(TotalBytes(Segment(log, start, st.r.recordsRead))))
  {
    hide Run, Init, LegalRun, S.Kept, L.Numbered, TotalBytes, Linked;
    RunLinked(base, maxAttempts, ignoreCommands, actions);
    EndsForAReason(base, maxAttempts, ignoreCommands, actions);
    ReturnsTheStream(log, start, base, maxAttempts, ignoreCommands, actions);
    RunInv(log, start, base, maxAttempts, ignoreCommands, actions);
    var st := Run(Init(base, maxAttempts, ignoreCommands), actions);
    assert Segment(log, start, st.r.recordsRead) == st.r.read;
  }
}
