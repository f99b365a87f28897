/** What a producer promises over every run. */
module ProducerTheorems {
  import opened Options
  import opened Errors
  import opened Records
  import opened Capacity
  import opened Producing
  import opened ProducerSteps
  import B = Batching

  function Run(s: State, actions: seq<Action>): State
    decreases |actions|
  {
    if actions == [] then s else Step(Run(s, actions[..|actions| - 1]), actions[|actions| - 1])
  }

  /** `s` is a state that a producer with the given byte limit can get into. */
  ghost predicate Reachable(maxInflightBytes: nat, s: State) {
    exists given, actions :: s == Run(Init(given, maxInflightBytes), actions)
  }

  lemma {:induction false} RunInv(s: State, actions: seq<Action>)
    requires Inv(s)
    ensures Inv(Run(s, actions)) && Sticks(s, Run(s, actions))
    decreases |actions|
  {
    hide Inv, Step;
    if actions != [] {
      RunInv(s, actions[..|actions| - 1]);
      StepInv(Run(s, actions[..|actions| - 1]), actions[|actions| - 1]);
      ErrorsStick(Run(s, actions[..|actions| - 1]), actions[|actions| - 1]);
    }
  }

  lemma ReachableInv(maxInflightBytes: nat, s: State)
    requires Reachable(maxInflightBytes, s)
    ensures Inv(s) && s.cap.maxBytes == maxInflightBytes
    ensures s.terminalErr.Some? ==> s.closing && s.cancelled && s.cap.closed
  {
    hide Inv, Run;
    var given, actions :| s == Run(Init(given, maxInflightBytes), actions);
    InitInv(given, maxInflightBytes);
    RunInv(Init(given, maxInflightBytes), actions);
  }

  /** A flush barrier reports no error exactly when every record accepted before it was acknowledged,
      and an error it reports is the producer's first terminal error. */
  lemma BarrierReportsExactly(maxInflightBytes: nat, s: State, k: nat)
    requires Reachable(maxInflightBytes, s) && k < |s.reports|
    ensures var r := s.reports[k];
            && r.before <= |s.b.accepted| == |s.outcomes|
            && (forall i | 0 <= i < r.before :: |s.outcomes[i]| == 1)
            && (r.err.None? <==> forall i | 0 <= i < r.before :: s.outcomes[i] != [] && s.outcomes[i][0].Acked?)
            && (r.err.Some? ==> r.err == s.terminalErr)
  {
    hide Reachable, Places, FatesKnown, B.Core, B.Inv, CapacityExact;
    ReachableInv(maxInflightBytes, s);
    assert ReportExact(s.reports[k], s.outcomes, s.terminalErr);
  }

  /** Terminal and append errors, once there, never change, and reports are never taken back. */
  lemma ErrorsStick(s: State, a: Action)
    ensures Sticks(s, Step(s, a))
  {
    hide Start, FlushRoom, Room, Check, Add, Barrier, Flush, Timer, CloseB, TakeItem, Accepted, Rejected, FailNow, Ack, Nack, DispatchOne, Answer, Terminal, B.Step;
  }

  /** After a terminal error no Submit gets room for a record any more. */
  lemma TerminalErrorShutsDown(maxInflightBytes: nat, s: State, record: AppendRecord, contextDone: bool)
    requires Reachable(maxInflightBytes, s) && s.terminalErr.Some?
    ensures Start(s, record, contextDone) == s
    ensures !Room(s, contextDone).submission.HasRoom? || s.submission.HasRoom?
    ensures !Check(s).submission.Cleared? || s.submission.Cleared?
  {
    hide Reachable, Inv, RecordBytes;
    ReachableInv(maxInflightBytes, s);
  }

  /** A record's ticket is resolved at most once, and exactly when its permit is taken; an ack names
      the record's place in the batch that carried it. */
  lemma ResolvedAtMostOnce(maxInflightBytes: nat, s: State, i: nat)
    requires Reachable(maxInflightBytes, s) && i < |s.b.accepted|
    ensures && |s.outcomes| == |s.permits| == |s.b.accepted|
            && |s.outcomes[i]| <= 1
            && (s.outcomes[i] == [] ==> s.permits[i] == RecordBytes(s.b.accepted[i]))
            && (s.outcomes[i] != [] ==> s.permits[i] == 0)
            && (i >= B.Start(s.b) ==> s.outcomes[i] == [])
            && (s.outcomes[i] != [] && s.outcomes[i][0].Acked? ==>
                  exists k :: 0 <= k < |s.b.flushed| && CarriedBy(s.b.flushed[k], s.b.accepted[i], s.outcomes[i][0].index))
  {
    hide Reachable, Inv, B.Core, RecordAgrees, RecordBytes;
    ReachableInv(maxInflightBytes, s);
    TicketState(s, i);
  }

  ghost predicate CarriedBy(f: B.Flushed, r: AppendRecord, index: nat) {
    f.emitted && index < B.Count(f.batch) && f.batch.input.records[index] == r
  }

  lemma TicketState(s: State, i: nat)
    requires Inv(s) && i < |s.b.accepted|
    ensures |s.outcomes| == |s.permits| == |s.b.accepted|
    ensures |s.outcomes[i]| <= 1
    ensures s.outcomes[i] == [] ==> s.permits[i] == RecordBytes(s.b.accepted[i])
    ensures s.outcomes[i] != [] ==> s.permits[i] == 0
    ensures i >= B.Start(s.b) ==> s.outcomes[i] == []
    ensures s.outcomes[i] != [] && s.outcomes[i][0].Acked? ==>
              exists k :: 0 <= k < |s.b.flushed| && CarriedBy(s.b.flushed[k], s.b.accepted[i], s.outcomes[i][0].index)
  {
    hide Places, ReportsExact, CapacityExact, B.Core, B.Inv, RecordBytes;
    if i >= B.Start(s.b) {
      assert RecordAgrees(i, i, Queued, s.outcomes[i], s.permits[i], s.b.accepted[i]);
    } else {
      var k := TileOf(s, i);
      var f := s.b.flushed[k];
      assert BatchAgrees(f.batch, FateOf(s.fate, f.batch), s.outcomes, s.permits, s.b.accepted);
      assert RecordAgrees(i, f.batch.first, FateOf(s.fate, f.batch), s.outcomes[i], s.permits[i], s.b.accepted[i]);
      if s.outcomes[i] != [] && s.outcomes[i][0].Acked? { assert CarriedBy(f, s.b.accepted[i], s.outcomes[i][0].index); }
    }
  }

  lemma TileOf(s: State, i: nat) returns (k: nat)
    requires Inv(s) && i < B.Start(s.b)
    ensures k < |s.b.flushed| && s.b.flushed[k].batch.first <= i < s.b.flushed[k].batch.first + B.Count(s.b.flushed[k].batch)
    ensures i < |s.b.accepted| && s.b.flushed[k].batch.input.records[i - s.b.flushed[k].batch.first] == s.b.accepted[i]
  {
    hide Places, ReportsExact, CapacityExact, RecordsAgree, FatesKnown, B.Inv;
    hide B.Tiles, B.Batches, B.Emitted, B.MatchAfter, B.Conditional, B.BarriersCover, B.ItemsOrdered;
    k := B.TileAt(s.b.flushed, B.Start(s.b), i);
    assert B.Faithful(s.b.flushed[k].batch, s.b.accepted, s.b.tickets);
  }

  /** The tracker holds exactly the permits not yet taken and the reservation of a running Submit,
      within the session's limit. */
  lemma CapacityInUse(maxInflightBytes: nat, s: State)
    requires Reachable(maxInflightBytes, s)
    ensures && s.cap.curBytes == Sum(s.permits) + Reservation(s.submission)
            && (maxInflightBytes > 0 ==> s.cap.curBytes <= maxInflightBytes)
            && (s.b.accepted != [] && (forall i | 0 <= i < |s.outcomes| :: s.outcomes[i] != []) ==> Sum(s.permits) == 0)
  {
    hide Reachable, Places, ReportsExact, RecordsAgree, FatesKnown, B.Inv, B.Core, RecordBytes;
    ReachableInv(maxInflightBytes, s);
    if s.b.accepted != [] && forall i | 0 <= i < |s.outcomes| :: s.outcomes[i] != [] {
      TicketState(s, 0);
      forall i | 0 <= i < |s.permits| ensures s.permits[i] == 0 { TicketState(s, i); }
      SumOfZeros(s.permits);
    }
  }

  lemma {:induction false} SumOfZeros(a: seq<int>)
    requires forall i | 0 <= i < |a| :: a[i] == 0
    ensures Sum(a) == 0
  {
    if a != [] { SumOfZeros(a[1..]); }
  }

  /** While a Submit waits for room, every permit still held belongs to a batch already flushed. */
  lemma WaitingIsNotOnItself(maxInflightBytes: nat, s: State, i: nat)
    requires Reachable(maxInflightBytes, s) && s.submission.Waiting? && i < |s.permits| && s.permits[i] > 0
    ensures exists k :: 0 <= k < |s.b.flushed| && s.b.flushed[k].emitted && !FateOf(s.fate, s.b.flushed[k].batch).Done?
                        && s.b.flushed[k].batch.first <= i < s.b.flushed[k].batch.first + B.Count(s.b.flushed[k].batch)
  {
    hide Reachable, Places, ReportsExact, CapacityExact, B.Inv, B.Core, RecordBytes;
    ReachableInv(maxInflightBytes, s);
    assert i < |s.b.accepted| == B.Start(s.b);
    var k := TileOf(s, i);
    var f := s.b.flushed[k];
    assert BatchAgrees(f.batch, FateOf(s.fate, f.batch), s.outcomes, s.permits, s.b.accepted);
    assert RecordAgrees(i, f.batch.first, FateOf(s.fate, f.batch), s.outcomes[i], s.permits[i], s.b.accepted[i]);
  }

  /** What an exited consumer leaves behind. */
  ghost predicate ExitedWell(s: State) {
    s.consumer.Exited? ==> s.b.channelClosed && s.consumed >= |s.b.sent| && s.inflight == []
  }

  ghost predicate SameConsumer(s: State, s': State) {
    s'.consumer == s.consumer && s'.consumed == s.consumed && s'.inflight == s.inflight
  }

  lemma FlushConsumer(s: State, drop: bool)
    ensures SameConsumer(s, Flush(s, drop))
  {
    hide B.DoFlush, B.NextBatch, TotalTaken, AfterTake, AfterResolve;
  }

  /** The batcher's and Submit's side leaves the consumer alone. */
  lemma FlushesConsumer(s: State, a: Action)
    requires a.FlushForRoom? || a.FlushBarrier? || a.FlushBatch? || a.TimerFires? || a.CloseBatcher?
    ensures SameConsumer(s, Step(s, a))
  {
    hide Flush, B.DoTimer;
    FlushConsumer(s, a.drop);
  }

  lemma AddConsumer(s: State, record: AppendRecord, d1: bool, d2: bool)
    ensures SameConsumer(s, Add(s, record, d1, d2))
  {
    hide Flush, B.Accepts, B.Fits, B.Full, B.Put, B.ArmTimer, RecordBytes;
    FlushConsumer(s, d1);
    FlushConsumer(Put(s, record), d2);
    FlushConsumer(Put(Flush(s, d1), record), d2);
  }

  lemma SubmitConsumer(s: State, a: Action)
    requires a.Submit? || a.GetRoom? || a.CheckAgain? || a.AddRecord? || a.GiveUp? || a.CloseChannel? || a.CancelBatcher? || a.Cancel? || a.NoticeCancel? || a.StartClosing?
    ensures SameConsumer(s, Step(s, a))
  {
    hide Add, TryReserve, RecordBytes, B.Step;
    if a.AddRecord? && s.submission.Cleared? { AddConsumer(s, s.submission.record, a.dropBefore, a.dropAfter); }
  }

  /** An exited consumer with nothing in flight does nothing more. */
  lemma ConsumerDone(s: State, a: Action)
    requires s.consumer.Exited? && s.inflight == []
    requires a.Take? || a.SubmitSucceeds? || a.SubmitFails? || a.FailBatch? || a.Acknowledge? || a.AckFails? || a.DispatchFailed? || a.ReportBarrier? || a.Exit?
    ensures Step(s, a) == s
  {
  }

  lemma ExitedStays(s: State, a: Action)
    requires s.consumer.Exited? && s.inflight == []
    ensures SameConsumer(s, Step(s, a))
  {
    hide Step;
    match a
    case FlushForRoom(_) => FlushesConsumer(s, a);
    case FlushBarrier(_, _) => FlushesConsumer(s, a);
    case FlushBatch(_) => FlushesConsumer(s, a);
    case TimerFires(_, _) => FlushesConsumer(s, a);
    case CloseBatcher(_) => FlushesConsumer(s, a);
    case Take => ConsumerDone(s, a);
    case SubmitSucceeds => ConsumerDone(s, a);
    case SubmitFails(_) => ConsumerDone(s, a);
    case FailBatch => ConsumerDone(s, a);
    case Acknowledge(_, _) => ConsumerDone(s, a);
    case AckFails(_, _) => ConsumerDone(s, a);
    case DispatchFailed(_) => ConsumerDone(s, a);
    case ReportBarrier => ConsumerDone(s, a);
    case Exit => ConsumerDone(s, a);
    case _ => SubmitConsumer(s, a);
  }

  /** Only `Exit` ends the consumer. */
  lemma NotExited(s: State, a: Action)
    requires !s.consumer.Exited? && !a.Exit?
    ensures !Step(s, a).consumer.Exited?
  {
    hide Step, SameConsumer;
    match a
    case FlushForRoom(_) => FlushesConsumer(s, a); SameStays(s, Step(s, a));
    case FlushBarrier(_, _) => FlushesConsumer(s, a); SameStays(s, Step(s, a));
    case FlushBatch(_) => FlushesConsumer(s, a); SameStays(s, Step(s, a));
    case TimerFires(_, _) => FlushesConsumer(s, a); SameStays(s, Step(s, a));
    case CloseBatcher(_) => FlushesConsumer(s, a); SameStays(s, Step(s, a));
    case Take => ConsumerGoesOn(s, a);
    case SubmitSucceeds => ConsumerGoesOn(s, a);
    case SubmitFails(_) => ConsumerGoesOn(s, a);
    case FailBatch => ConsumerGoesOn(s, a);
    case Acknowledge(_, _) => ConsumerGoesOn(s, a);
    case AckFails(_, _) => ConsumerGoesOn(s, a);
    case DispatchFailed(_) => ConsumerGoesOn(s, a);
    case ReportBarrier => ConsumerGoesOn(s, a);
    case _ => SubmitConsumer(s, a); SameStays(s, Step(s, a));
  }

  lemma SameStays(s: State, s': State)
    requires SameConsumer(s, s')
    ensures s'.consumer == s.consumer
  {
  }

  lemma ConsumerGoesOn(s: State, a: Action)
    requires !s.consumer.Exited?
    requires a.Take? || a.SubmitSucceeds? || a.SubmitFails? || a.FailBatch? || a.Acknowledge? || a.AckFails? || a.DispatchFailed? || a.ReportBarrier?
    ensures !Step(s, a).consumer.Exited?
  {
    hide TotalTaken, AfterTake, AfterResolve;
  }

  lemma ClosedBatcher(given: Option<B.BatchingOptions>, b: B.State, a: B.Action)
    requires B.Reachable(given, b) && b.channelClosed
    ensures B.Step(b, a).sent == b.sent && B.Step(b, a).channelClosed
  {
    hide B.Reachable, B.Core;
    B.ReachableInv(given, b);
    B.NothingAfterClose(given, b, a);
  }

  lemma ExitStep(s: State)
    requires !s.consumer.Exited?
    ensures ExitedWell(Step(s, Exit))
  {
  }

  lemma ExitedStep(given: Option<B.BatchingOptions>, s: State, a: Action)
    requires Inv(s) && B.Reachable(given, s.b) && ExitedWell(s)
    ensures ExitedWell(Step(s, a))
  {
    hide Inv, B.Reachable, Step, B.Step, BatcherAction;
    if s.consumer.Exited? {
      ExitedStays(s, a);
      BatcherStepsOnly(s, a);
      var step := BatcherAction(s, a);
      if step.Some? { ClosedBatcher(given, s.b, step.value); }
    } else if a.Exit? {
      ExitStep(s);
    } else {
      NotExited(s, a);
    }
  }

  lemma {:induction false} ExitedRun(given: Option<B.BatchingOptions>, maxInflightBytes: nat, actions: seq<Action>)
    ensures ExitedWell(Run(Init(given, maxInflightBytes), actions))
    decreases |actions|
  {
    hide Inv, Step, B.Reachable;
    if actions != [] {
      var before := actions[..|actions| - 1];
      ExitedRun(given, maxInflightBytes, before);
      InitInv(given, maxInflightBytes);
      RunInv(Init(given, maxInflightBytes), before);
      BatcherReachable(given, maxInflightBytes, before);
      ExitedStep(given, Run(Init(given, maxInflightBytes), before), actions[|actions| - 1]);
    }
  }

  lemma ReachableExited(maxInflightBytes: nat, s: State)
    requires Reachable(maxInflightBytes, s)
    ensures ExitedWell(s)
  {
    hide Run, ExitedWell;
    var given, actions :| s == Run(Init(given, maxInflightBytes), actions);
    ExitedRun(given, maxInflightBytes, actions);
  }

  /** When the consumer has exited, which is what Close waits for, the channel is closed and drained, no ack
      is awaited, and every accepted record was resolved exactly once. */
  lemma DrainResolvesAll(maxInflightBytes: nat, s: State)
    requires Reachable(maxInflightBytes, s) && s.consumer.Exited?
    ensures s.b.channelClosed && s.consumed == |s.b.sent| && s.inflight == []
    ensures |s.outcomes| == |s.b.accepted| && forall i | 0 <= i < |s.outcomes| :: |s.outcomes[i]| == 1
  {
    hide Reachable, Inv;
    ReachableInv(maxInflightBytes, s);
    ReachableExited(maxInflightBytes, s);
    OutcomeEach(s);
    forall i | 0 <= i < |s.outcomes| ensures |s.outcomes[i]| == 1 { DrainedRecord(s, i); }
  }

  lemma OutcomeEach(s: State)
    requires Inv(s)
    ensures |s.outcomes| == |s.b.accepted| && s.consumed <= |s.b.sent|
  {
    hide Held, ErrorsAgree, FailuresAgree, ReportsExact, CapacityExact, FatesKnown, B.Core;
  }

  lemma DrainedRecord(s: State, i: nat)
    requires Inv(s) && s.consumer.Exited? && s.b.channelClosed && s.consumed >= |s.b.sent| && s.inflight == [] && i < |s.b.accepted|
    ensures i < |s.outcomes| && |s.outcomes[i]| == 1
  {
    hide Inv, B.Core, FateOf;
    ClosedIsFlushed(s);
    var k := TileOf(s, i);
    DrainedBatch(s, k);
    RecordOf(s, k, i);
  }

  lemma ClosedIsFlushed(s: State)
    requires Inv(s) && s.b.channelClosed
    ensures B.Start(s.b) == |s.b.accepted|
  {
    hide Places, ReportsExact, CapacityExact, RecordsAgree, FatesKnown, B.Core;
  }

  lemma DrainedBatch(s: State, k: nat)
    requires Inv(s) && s.consumer.Exited? && s.consumed >= |s.b.sent| && s.inflight == [] && k < |s.b.flushed|
    ensures FateOf(s.fate, s.b.flushed[k].batch).Done?
  {
    hide ReportsExact, CapacityExact, RecordsAgree, FateOf, Held, ErrorsAgree, FailuresAgree;
    hide B.Tiles, B.Batches, B.Emitted, B.MatchAfter, B.Conditional, B.BarriersCover, B.ItemsOrdered, B.FlushedWell, B.Settled;
    if s.b.flushed[k].emitted {
      B.EmittedIn(s.b.flushed, k);
      B.BatchesIn(s.b.sent, s.b.flushed[k].batch);
    }
  }

  /** The batcher's part of a producer step. */
  function BatcherAction(s: State, a: Action): Option<B.Action> {
    match a
    case AddRecord(d1, d2) => if s.submission.Cleared? then Some(B.Add(s.submission.record, Some(|s.b.accepted|), d1, d2)) else None
    case FlushForRoom(drop) => if s.submission.NeedsFlush? then Some(B.FlushForBackpressure(drop)) else None
    case FlushBarrier(drop, cancelled) => Some(B.FlushBarrier(drop, cancelled))
    case FlushBatch(drop) => Some(B.Flush(drop))
    case TimerFires(q, drop) => Some(B.TimerFires(q, drop))
    case CloseBatcher(drop) => Some(B.Close(drop))
    case CloseChannel => Some(B.CloseChannel)
    case CancelBatcher => Some(B.CancelContext)
    case _ => None
  }

  /** The batcher inside the producer only ever takes the batcher's own steps. */
  lemma BatcherStepsOnly(s: State, a: Action)
    requires Inv(s)
    ensures Step(s, a).b == var step := BatcherAction(s, a); if step.None? then s.b else B.Step(s.b, step.value)
  {
    hide Inv, Flush, B.DoFlush, B.DoAdd, B.DoBarrier, B.DoTimer, B.DoClose, Barrier, FlushRoom, Add, Timer, CloseB, GiveBack, Start, Room, Check, TakeItem, Accepted, Rejected, FailNow, Ack, Nack, DispatchOne, Answer, Terminal;
    match a
    case AddRecord(d1, d2) => if s.submission.Cleared? { AddOnly(s, d1, d2); }
    case FlushForRoom(drop) => FlushRoomOnly(s, drop);
    case FlushBarrier(drop, cancelled) => BarrierOnly(s, drop, cancelled);
    case FlushBatch(drop) => FlushOnly(s, drop);
    case TimerFires(q, drop) => TimerInv(s, q, drop);
    case CloseBatcher(drop) => CloseInv(s, drop);
    case _ => QuietOnly(s, a);
  }

  lemma QuietOnly(s: State, a: Action)
    requires !a.AddRecord? && !a.FlushForRoom? && !a.FlushBarrier? && !a.FlushBatch? && !a.TimerFires? && !a.CloseBatcher?
    ensures Step(s, a).b == var step := BatcherAction(s, a); if step.None? then s.b else B.Step(s.b, step.value)
  {
    hide Start, Room, Check, TakeItem, Accepted, Rejected, FailNow, Ack, Nack, DispatchOne, Answer, Terminal, B.Step;
  }

  /** So the batcher's properties over every run hold of the one inside a producer. */
  lemma {:induction false} BatcherReachable(given: Option<B.BatchingOptions>, maxInflightBytes: nat, actions: seq<Action>)
    ensures B.Reachable(given, Run(Init(given, maxInflightBytes), actions).b)
    decreases |actions|
  {
    hide Inv, Step, B.Step, BatcherAction;
    var init := Init(given, maxInflightBytes);
    if actions == [] {
      assert init.b == B.Run(B.Init(given), []);
    } else {
      var before := actions[..|actions| - 1];
      BatcherReachable(given, maxInflightBytes, before);
      InitInv(given, maxInflightBytes);
      RunInv(init, before);
      var s := Run(init, before);
      BatcherStepsOnly(s, actions[|actions| - 1]);
      var taken :| s.b == B.Run(B.Init(given), taken);
      var step := BatcherAction(s, actions[|actions| - 1]);
      if step.Some? {
        var more := taken + [step.value];
        assert more[..|more| - 1] == taken;
        assert Run(init, actions).b == B.Run(B.Init(given), more);
      }
    }
  }

  lemma AddOnly(s: State, d1: bool, d2: bool)
    requires Inv(s) && s.submission.Cleared?
    ensures Add(s, s.submission.record, d1, d2).b == B.DoAdd(s.b, s.submission.record, Some(|s.b.accepted|), d1, d2)
  {
    hide Core, B.Core, Flush, B.DoFlush, RecordBytes;
    if B.Accepts(s.b, s.submission.record) { AddKeeps(s, s.submission.record, d1, d2); }
  }

  lemma FlushRoomOnly(s: State, drop: bool)
    requires Inv(s)
    ensures FlushRoom(s, drop).b == if s.submission.NeedsFlush? && !s.b.closed then B.DoFlush(s.b, drop) else s.b
  {
    hide Inv, Flush, B.DoFlush;
    FlushOnly(s, drop);
  }

  lemma BarrierOnly(s: State, drop: bool, cancelled: bool)
    requires Inv(s)
    ensures Barrier(s, drop, cancelled).b == B.DoBarrier(s.b, drop, cancelled)
  {
    hide Inv, Flush, B.DoFlush;
    FlushOnly(s, drop);
  }

  lemma FlushOnly(s: State, drop: bool)
    requires Inv(s)
    ensures Flush(s, drop).b == B.DoFlush(s.b, drop)
  {
    FlushInv(s, drop);
  }
}
