/** What a producer's tickets receive and from which event, and what each of its steps does from
    conditions on the state before, whatever the code that decides. */
module ProducerDecisions {
  import opened Options
  import opened Errors
  import opened Records
  import opened Capacity
  import opened Producing
  import opened ProducerSteps
  import opened ProducerTheorems
  import B = Batching

  // ---- one batch's tickets ----

  ghost predicate InBatch(batch: Batch, i: int) { batch.first <= i < batch.first + B.Count(batch) }

  ghost predicate OthersKeep(s: State, t: State, batch: Batch) {
    && |t.outcomes| == |s.outcomes| && batch.first + B.Count(batch) <= |s.outcomes|
    && forall i | 0 <= i < |s.outcomes| && !InBatch(batch, i) :: t.outcomes[i] == s.outcomes[i]
  }

  /** Every record of the batch, unresolved so far, got the batch's start with its own index. */
  ghost predicate BatchAcked(s: State, t: State, batch: Batch, start: nat) {
    && OthersKeep(s, t, batch)
    && forall i | batch.first <= i < batch.first + B.Count(batch) :: s.outcomes[i] == [] && t.outcomes[i] == [Acked(start, i - batch.first)]
  }

  /** Every record of the batch, unresolved so far, failed with the error. */
  ghost predicate BatchFailed(s: State, t: State, batch: Batch, err: Err) {
    && OthersKeep(s, t, batch)
    && forall i | batch.first <= i < batch.first + B.Count(batch) :: s.outcomes[i] == [] && t.outcomes[i] == [Failed(err)]
  }

  lemma BatchResolves(s: State, k: nat, v: Verdict, t: State)
    requires Inv(s) && k < |s.b.flushed| && !FateOf(s.fate, s.b.flushed[k].batch).Done?
    requires t.outcomes == AfterResolve(s.outcomes, s.b.flushed[k].batch.meta, v)
    ensures v.Landed? ==> BatchAcked(s, t, s.b.flushed[k].batch, v.start)
    ensures v.Lost? ==> BatchFailed(s, t, s.b.flushed[k].batch, v.err)
  {
    hide Places, ReportsExact, CapacityExact, FatesKnown, B.Inv, B.Core, RecordBytes, FateOf, OwnTickets, Ticketed, AfterResolve;
    var batch := s.b.flushed[k].batch;
    FlushedFacts(s.b, k);
    assert BatchAgrees(batch, FateOf(s.fate, batch), s.outcomes, s.permits, s.b.accepted);
    ResolveEach(s.outcomes, batch.meta, v, batch.first);
    forall i | batch.first <= i < batch.first + B.Count(batch) ensures s.outcomes[i] == [] {
      assert RecordAgrees(i, batch.first, FateOf(s.fate, batch), s.outcomes[i], s.permits[i], s.b.accepted[i]);
    }
  }

  lemma HeldIndex(s: State, batch: Batch) returns (k: nat)
    requires Inv(s) && B.Records(batch) in s.b.sent
    ensures k < |s.b.flushed| && s.b.flushed[k] == B.Flushed(batch, true)
  {
    hide RecordsAgree, ReportsExact, CapacityExact, FatesKnown, Places, B.Inv;
    k := SentIndex(s.b, batch);
  }

  /** An ack gives each record of its batch the batch's start and the record's place, and takes the batch
      out of flight. */
  lemma AckResolves(maxInflightBytes: nat, s: State, m: nat, start: nat)
    requires Reachable(maxInflightBytes, s) && m < |s.inflight| && s.inflight[m].failed.None?
    ensures var t := Step(s, Acknowledge(m, start));
            && BatchAcked(s, t, s.inflight[m].batch, start)
            && t.inflight == s.inflight[..m] + s.inflight[m + 1..] && t.terminalErr == s.terminalErr && t.appendErr == s.appendErr
  {
    hide Reachable, Inv, AfterResolve, TotalTaken, AfterTake, FateOf, BatchAcked;
    ReachableInv(maxInflightBytes, s);
    HeldFates(s);
    var k := HeldIndex(s, s.inflight[m].batch);
    BatchResolves(s, k, Landed(start), Step(s, Acknowledge(m, start)));
  }

  /** A failed ack settles on the first terminal error, which the batch's tickets then receive. */
  lemma FailedAckResolves(maxInflightBytes: nat, s: State, m: nat, err: Err)
    requires Reachable(maxInflightBytes, s) && m < |s.inflight|
    ensures s.inflight[m].failed.None? ==>
              var t := Step(s, AckFails(m, err));
              && t.terminalErr == Some(if s.terminalErr.Some? then s.terminalErr.value else err) && t.outcomes == s.outcomes
              && t.inflight == s.inflight[m := Flight(s.inflight[m].batch, t.terminalErr)] && t.closing && t.cancelled && t.cap.closed
    ensures s.inflight[m].failed.Some? ==>
              var t := Step(s, DispatchFailed(m));
              && s.terminalErr.Some? && BatchFailed(s, t, s.inflight[m].batch, s.terminalErr.value)
              && t.inflight == s.inflight[..m] + s.inflight[m + 1..]
              && t.appendErr == if s.appendErr.Some? then s.appendErr else s.terminalErr
  {
    hide Reachable, Inv, AfterResolve, TotalTaken, AfterTake, FateOf, BatchFailed, BatchAcked;
    ReachableInv(maxInflightBytes, s);
    HeldFates(s);
    if s.inflight[m].failed.Some? {
      var k := HeldIndex(s, s.inflight[m].batch);
      BatchResolves(s, k, Lost(s.terminalErr.value), Step(s, DispatchFailed(m)));
    }
  }

  // ---- the consumer ----

  /** The next item of the channel: a barrier is held, a batch submitted, or failed at once with the
      terminal error. */
  lemma TakeDecides(maxInflightBytes: nat, s: State)
    requires Reachable(maxInflightBytes, s)
    ensures var t := Step(s, Take);
            if !s.consumer.Idle? || s.consumed == |s.b.sent| then t == s
            else
              && s.consumed < |s.b.sent| && t.consumed == s.consumed + 1 && t.inflight == s.inflight && t.terminalErr == s.terminalErr
              && match s.b.sent[s.consumed]
                 case Barrier(before) => t.consumer == AtBarrier(before) && t.outcomes == s.outcomes
                 case Records(batch) =>
                   if s.terminalErr.None? then t.consumer == Submitting(batch) && t.outcomes == s.outcomes
                   else t.consumer.Idle? && BatchFailed(s, t, batch, s.terminalErr.value)
                        && t.appendErr == if s.appendErr.Some? then s.appendErr else s.terminalErr
  {
    hide Reachable, Inv, AfterResolve, TotalTaken, AfterTake, BatchFailed, BatchAcked;
    ReachableInv(maxInflightBytes, s);
    ConsumedWithin(s);
    if s.consumer.Idle? && s.consumed < |s.b.sent| && s.b.sent[s.consumed].Records? && s.terminalErr.Some? {
      ChannelHead(s);
      var batch := s.b.sent[s.consumed].batch;
      assert B.Records(batch) in s.b.sent;
      var k := HeldIndex(s, batch);
      BatchResolves(s, k, Lost(s.terminalErr.value), Step(s, Take));
    }
  }

  lemma ConsumedWithin(s: State)
    requires Inv(s)
    ensures s.consumed <= |s.b.sent|
  {
    hide Books, FatesKnown, Held, ErrorsAgree, FailuresAgree, B.Inv;
  }

  /** A submitted batch that the session takes is in flight; one that it refuses waits with the first
      terminal error, and fails with it once no ack is awaited. */
  lemma SubmittedDecides(maxInflightBytes: nat, s: State, err: Err)
    requires Reachable(maxInflightBytes, s)
    ensures s.consumer.Submitting? ==>
              var t := Step(s, SubmitSucceeds);
              t.consumer.Idle? && t.inflight == s.inflight + [Flight(s.consumer.batch, None)] && t.outcomes == s.outcomes
    ensures s.consumer.Submitting? ==>
              var t := Step(s, SubmitFails(err));
              && t.terminalErr == Some(if s.terminalErr.Some? then s.terminalErr.value else err) && t.outcomes == s.outcomes
              && t.consumer == Failing(s.consumer.batch, t.terminalErr.value) && t.closing && t.cancelled && t.cap.closed
    ensures s.consumer.Failing? ==>
              var t := Step(s, FailBatch);
              if s.inflight != [] then t == s
              else t.consumer.Idle? && s.terminalErr.Some? && BatchFailed(s, t, s.consumer.batch, s.terminalErr.value)
                   && t.appendErr == if s.appendErr.Some? then s.appendErr else s.terminalErr
  {
    hide Reachable, Inv, AfterResolve, TotalTaken, AfterTake, FateOf, BatchFailed, BatchAcked;
    ReachableInv(maxInflightBytes, s);
    HeldFates(s);
    if s.consumer.Failing? && s.inflight == [] {
      var k := HeldIndex(s, s.consumer.batch);
      BatchResolves(s, k, Lost(s.consumer.err), Step(s, FailBatch));
    }
  }

  /** A barrier is answered with the append error exactly when no ack is awaited, and the consumer exits
      exactly when the channel is closed and drained and none is. */
  lemma BarrierAnswered(s: State)
    ensures var t := Step(s, ReportBarrier);
            if s.consumer.AtBarrier? && s.inflight == []
            then t == s.(consumer := Idle, reports := s.reports + [Report(s.consumer.before, s.appendErr)]) else t == s
    ensures var t := Step(s, Exit);
            if s.consumer.Idle? && s.b.channelClosed && s.consumed >= |s.b.sent| && s.inflight == [] then t == s.(consumer := Exited) else t == s
  {
  }

  // ---- Submit ----

  /** Whether `n` more bytes fit beside the permits not yet taken. */
  ghost predicate FitsBeside(s: State, n: nat) {
    s.cap.maxBytes > 0 ==> Sum(s.permits) + Reservation(s.submission) + n <= s.cap.maxBytes
  }

  /** Submit takes a record up exactly when the producer is running, no other is under way and the record
      fits in a batch and in the limit. It has room at once exactly when it fits beside what is held, and
      the room is then reserved. */
  lemma SubmitDecides(maxInflightBytes: nat, s: State, record: AppendRecord, contextDone: bool)
    requires Reachable(maxInflightBytes, s)
    ensures var t := Step(s, Submit(record, contextDone));
            var n := RecordBytes(record);
            var taken := && s.submission.Free? && s.terminalErr.None? && !s.closing && !s.cancelled && !s.cap.closed && !contextDone
                         && n <= s.b.opts.maxMeteredBytes && (maxInflightBytes > 0 ==> n <= maxInflightBytes);
            && (!taken ==> t == s)
            && (taken ==> t.submission == (if FitsBeside(s, n) then HasRoom(record) else NeedsFlush(record)))
            && t.cap.curBytes == s.cap.curBytes + (if taken && FitsBeside(s, n) then n else 0)
  {
    hide Reachable, Inv, RecordBytes;
    ReachableInv(maxInflightBytes, s);
    TrackerIs(s);
  }

  lemma TrackerIs(s: State)
    requires Inv(s)
    ensures s.cap.maxItems == 0 && s.cap.curItems == 0 && s.cap.curBytes == Sum(s.permits) + Reservation(s.submission)
  {
    hide RecordsAgree, ReportsExact, FatesKnown, Places, B.Core, B.Inv, RecordBytes;
  }

  /** A waiting Submit goes on exactly when there is room, and ends exactly when it can no longer get any;
      with room it goes on to the batcher exactly while the producer still runs, and otherwise gives the
      room back. */
  lemma WaitingDecides(maxInflightBytes: nat, s: State, contextDone: bool)
    requires Reachable(maxInflightBytes, s)
    ensures s.submission.Waiting? ==>
              var t := Step(s, GetRoom(contextDone));
              var n := RecordBytes(s.submission.record);
              var over := (maxInflightBytes > 0 && n > maxInflightBytes) || s.cap.closed || contextDone;
              && t.submission == (if over then Free else if FitsBeside(s, n) then HasRoom(s.submission.record) else s.submission)
              && t.cap.curBytes == s.cap.curBytes + (if !over && FitsBeside(s, n) then n else 0)
    ensures s.submission.HasRoom? ==>
              var t := Step(s, CheckAgain);
              if s.terminalErr.None? && !s.closing && !s.cancelled
              then t == s.(submission := Cleared(s.submission.record))
              else t.submission.Free? && t.cap.curBytes == Sum(s.permits) && t.permits == s.permits
  {
    hide Reachable, Inv, RecordBytes;
    ReachableInv(maxInflightBytes, s);
    TrackerIs(s);
    PermitsPositive(s);
  }

  lemma PermitsPositive(s: State)
    requires Inv(s)
    ensures Sum(s.permits) >= 0
  {
    hide RecordsAgree, ReportsExact, FatesKnown, Places, B.Core, B.Inv, RecordBytes;
    SumOfNaturals(s.permits);
  }

  /** Submit flushes what waits before it waits for room, and gives up when that was dropped or the batcher
      is closed. */
  lemma RoomFlushes(s: State, drop: bool)
    ensures s.submission.NeedsFlush? ==>
              var t := Step(s, FlushForRoom(drop));
              && t.submission == (if s.b.closed || (drop && s.b.buffer != []) then Free else Waiting(s.submission.record))
              && t.b == if s.b.closed then s.b else B.Step(s.b, B.Flush(drop))
    ensures s.submission.NeedsFlush? || s.submission.Waiting? ==> Step(s, GiveUp) == s.(submission := Free)
  {
    hide Resolve, B.DoFlush;
    FlushIs(s, drop);
  }

  lemma FlushIs(s: State, drop: bool)
    ensures Flush(s, drop).b == B.DoFlush(s.b, drop) && B.Step(s.b, B.Flush(drop)) == B.DoFlush(s.b, drop)
  {
    hide B.DoFlush, B.NextBatch, Resolve;
  }

  /** A cancellation that is noticed becomes the terminal error. */
  lemma ShutdownDecides(s: State, err: Err)
    ensures s.cancelled || s.b.done ==>
              var t := Step(s, NoticeCancel(err));
              t.terminalErr == (if s.terminalErr.Some? then s.terminalErr else Some(err)) && t.outcomes == s.outcomes
    ensures !s.cancelled && !s.b.done ==> Step(s, NoticeCancel(err)) == s
    ensures Step(s, Cancel) == s.(cancelled := true)
    ensures Step(s, StartClosing) == s.(closing := true, cap := s.cap.(closed := true))
  {
    hide Sticks;
  }

  // ---- where an outcome came from ----

  /** The batch starting at record `f` was dropped by the batcher. */
  ghost predicate Dropped(s: State, f: nat) {
    exists k :: 0 <= k < |s.b.flushed| && s.b.flushed[k].batch.first == f && !s.b.flushed[k].emitted
  }

  /** Batches only get done by being dropped here. */
  ghost predicate OnlyDrops(s: State, t: State) {
    && s.b.flushed <= t.b.flushed
    && forall f | f in t.fate && t.fate[f].Done? :: (f in s.fate && s.fate[f] == t.fate[f]) || (t.fate[f] == Done(Lost(Cancelled)) && Dropped(t, f))
  }

  lemma DropsCompose(s: State, t: State, u: State)
    requires OnlyDrops(s, t) && OnlyDrops(t, u)
    ensures OnlyDrops(s, u)
  {
    forall f | Dropped(t, f) ensures Dropped(u, f) {
      var k :| 0 <= k < |t.b.flushed| && t.b.flushed[k].batch.first == f && !t.b.flushed[k].emitted;
      assert u.b.flushed[k] == t.b.flushed[k];
    }
  }

  lemma SameDrops(s: State, t: State)
    requires t.fate == s.fate && t.b.flushed == s.b.flushed
    ensures OnlyDrops(s, t)
  {
  }

  lemma FlushDrops(s: State, drop: bool)
    ensures OnlyDrops(s, Flush(s, drop))
  {
    hide TotalTaken, AfterTake, AfterResolve;
    if s.b.buffer != [] && drop {
      var t := Flush(s, drop);
      var k := |s.b.flushed|;
      assert t.b.flushed[k].batch.first == B.NextBatch(s.b).first && !t.b.flushed[k].emitted;
    }
  }

  lemma AddDrops(s: State, record: AppendRecord, d1: bool, d2: bool)
    ensures OnlyDrops(s, Add(s, record, d1, d2))
  {
    hide Flush, B.Accepts, B.Fits, B.Full, RecordBytes, OnlyDrops;
    SameDrops(s, GiveBack(s, RecordBytes(record)));
    if B.Accepts(s.b, record) {
      var s1 := if B.Fits(s.b, RecordBytes(record)) then s else Flush(s, d1);
      SameDrops(s, s);
      FlushDrops(s, d1);
      var s2 := Put(s1, record);
      SameDrops(s1, s2);
      DropsCompose(s, s1, s2);
      FlushDrops(s2, d2);
      SameDrops(s2, s2.(b := B.ArmTimer(s2.b)));
      DropsCompose(s, s2, Add(s, record, d1, d2));
    }
  }

  lemma BatcherDrops(s: State, a: Action)
    requires a.FlushForRoom? || a.FlushBarrier? || a.FlushBatch? || a.CloseBatcher? || a.TimerFires?
    ensures OnlyDrops(s, Step(s, a))
  {
    hide Flush, OnlyDrops, Dropped, Step;
    var t, u := Flush(s, a.drop), Step(s, a);
    FlushDrops(s, a.drop);
    if a.TimerFires? { TimerParts(s, a.timerSeq, a.drop); } else { FlushParts(s, a); }
    if u.fate == t.fate && u.b.flushed == t.b.flushed {
      SameDrops(t, u);
      DropsCompose(s, t, u);
    } else {
      SameDrops(s, u);
    }
  }

  lemma TimerParts(s: State, q: nat, drop: bool)
    ensures var t, u := Flush(s, drop), Step(s, TimerFires(q, drop));
            (u.fate == t.fate && u.b.flushed == t.b.flushed) || (u.fate == s.fate && u.b.flushed == s.b.flushed)
  {
    hide Flush;
    if s.b.closed || !s.b.timer || s.b.timerSeq != q { StaleTimer(s.b, q, drop); }
  }

  lemma StaleTimer(b: B.State, q: nat, drop: bool)
    requires b.closed || !b.timer || b.timerSeq != q
    ensures B.DoTimer(b, q, drop).flushed == b.flushed
  {
  }

  lemma FlushParts(s: State, a: Action)
    requires a.FlushForRoom? || a.FlushBarrier? || a.FlushBatch? || a.CloseBatcher?
    ensures var t, u := Flush(s, a.drop), Step(s, a);
            (u.fate == t.fate && u.b.flushed == t.b.flushed) || (u.fate == s.fate && u.b.flushed == s.b.flushed)
  {
    hide Flush, Sticks, Barrier, CloseB;
    if a.FlushBarrier? { BarrierParts(s, a.drop, a.cancelled); }
    if a.CloseBatcher? { SealParts(s, a.drop); }
  }

  lemma BarrierParts(s: State, drop: bool, cancelled: bool)
    ensures var t, u := Flush(s, drop), Barrier(s, drop, cancelled);
            (u.fate == t.fate && u.b.flushed == t.b.flushed) || u == s
  {
    hide Flush, Sticks;
  }

  lemma SealParts(s: State, drop: bool)
    ensures var t, u := Flush(s, drop), CloseB(s, drop);
            (u.fate == t.fate && u.b.flushed == t.b.flushed) || u == s
  {
    hide Flush, Sticks;
  }

  lemma QuietDrops(s: State, a: Action)
    requires a.Submit? || a.GetRoom? || a.CheckAgain? || a.GiveUp? || a.CloseChannel? || a.CancelBatcher? || a.Cancel? || a.NoticeCancel? || a.StartClosing?
             || a.SubmitFails? || a.AckFails? || a.ReportBarrier? || a.Exit?
    ensures OnlyDrops(s, Step(s, a))
  {
    hide OnlyDrops, TryReserve, RecordBytes, Start, Room, Check, Rejected, Nack, Answer, Terminal, B.Step, GiveBack;
    QuietParts(s, a);
    SameDrops(s, Step(s, a));
  }

  lemma QuietParts(s: State, a: Action)
    requires a.Submit? || a.GetRoom? || a.CheckAgain? || a.GiveUp? || a.CloseChannel? || a.CancelBatcher? || a.Cancel? || a.NoticeCancel? || a.StartClosing?
             || a.SubmitFails? || a.AckFails? || a.ReportBarrier? || a.Exit?
    ensures Step(s, a).fate == s.fate && Step(s, a).b.flushed == s.b.flushed
  {
    hide Start, Room, Check, Nack, Rejected, Terminal, Answer, Sticks, B.Step;
    match a
    case Submit(record, contextDone) => SubmitParts(s, record, contextDone);
    case GetRoom(contextDone) => RoomParts(s, contextDone);
    case CheckAgain => RoomParts(s, true);
    case AckFails(i, err) => ErrorParts(s, i, err);
    case SubmitFails(err) => ErrorParts(s, 0, err);
    case NoticeCancel(err) => ErrorParts(s, 0, err);
    case ReportBarrier => AnswerParts(s);
    case CloseChannel => FlagParts(s.b);
    case CancelBatcher => FlagParts(s.b);
    case _ =>
  }

  lemma SubmitParts(s: State, record: AppendRecord, contextDone: bool)
    ensures Start(s, record, contextDone).fate == s.fate
  {
    hide TryReserve, RecordBytes, Sticks;
  }

  lemma RoomParts(s: State, contextDone: bool)
    ensures Room(s, contextDone).fate == s.fate && Check(s).fate == s.fate
  {
    hide TryReserve, RecordBytes, Release, Sticks;
  }

  lemma ErrorParts(s: State, i: nat, err: Err)
    ensures Nack(s, i, err).fate == s.fate && Rejected(s, err).fate == s.fate && Terminal(s, err).fate == s.fate
  {
    hide Sticks;
  }

  lemma AnswerParts(s: State)
    ensures Answer(s).fate == s.fate
  {
    hide Sticks;
  }

  lemma FlagParts(b: B.State)
    ensures B.Step(b, B.CloseChannel).flushed == b.flushed && B.Step(b, B.CancelContext).flushed == b.flushed
  {
  }

  /** The batch starting at `f` was lost to the terminal error, or landed where this ack says. */
  ghost predicate DoneBy(s: State, a: Action, t: State, f: nat, v: Verdict) {
    || (v.Lost? && t.terminalErr == Some(v.err))
    || (a.Acknowledge? && a.i < |s.inflight| && s.inflight[a.i].batch.first == f && v == Landed(a.start))
  }

  ghost predicate Known(s: State, a: Action, t: State) {
    && s.b.flushed <= t.b.flushed
    && forall f | f in t.fate && t.fate[f].Done? ::
         (f in s.fate && s.fate[f] == t.fate[f]) || (t.fate[f] == Done(Lost(Cancelled)) && Dropped(t, f)) || DoneBy(s, a, t, f, t.fate[f].v)
  }

  lemma ConsumerKnown(s: State, a: Action)
    requires Inv(s) && (a.Take? || a.SubmitSucceeds? || a.FailBatch? || a.Acknowledge? || a.DispatchFailed?)
    ensures Known(s, a, Step(s, a))
  {
    hide Inv, FateOf, TotalTaken, AfterTake, AfterResolve, Dropped;
    HeldFates(s);
  }

  lemma StepKnown(s: State, a: Action)
    requires Inv(s)
    ensures Known(s, a, Step(s, a))
  {
    hide Inv, Step, DoneBy, Dropped;
    match a
    case Take => ConsumerKnown(s, a);
    case SubmitSucceeds => ConsumerKnown(s, a);
    case FailBatch => ConsumerKnown(s, a);
    case Acknowledge(_, _) => ConsumerKnown(s, a);
    case DispatchFailed(_) => ConsumerKnown(s, a);
    case AddRecord(d1, d2) => AddStepDrops(s, d1, d2);
    case FlushForRoom(_) => BatcherDrops(s, a);
    case FlushBarrier(_, _) => BatcherDrops(s, a);
    case FlushBatch(_) => BatcherDrops(s, a);
    case CloseBatcher(_) => BatcherDrops(s, a);
    case TimerFires(_, _) => BatcherDrops(s, a);
    case _ => QuietDrops(s, a);
  }

  lemma AddStepDrops(s: State, d1: bool, d2: bool)
    ensures OnlyDrops(s, Step(s, AddRecord(d1, d2)))
  {
    hide OnlyDrops, Add;
    if s.submission.Cleared? { AddDrops(s, s.submission.record, d1, d2); } else { SameDrops(s, s); }
  }

  /** Ack `j` of the run was for the batch starting at `f`. */
  ghost predicate AckOf(init: State, actions: seq<Action>, j: nat, f: nat, start: nat) {
    && j < |actions| && actions[j].Acknowledge? && actions[j].start == start
    && var p := Run(init, actions[..j]);
       actions[j].i < |p.inflight| && p.inflight[actions[j].i].batch.first == f
  }

  /** Every batch that is done was dropped, lost to the terminal error, or acknowledged in the run. */
  ghost predicate AllKnown(init: State, actions: seq<Action>) {
    var s := Run(init, actions);
    forall f | f in s.fate && s.fate[f].Done? ::
      || (s.fate[f] == Done(Lost(Cancelled)) && Dropped(s, f))
      || (s.fate[f].v.Lost? && s.terminalErr == Some(s.fate[f].v.err))
      || (s.fate[f].v.Landed? && exists j :: 0 <= j < |actions| && AckOf(init, actions, j, f, s.fate[f].v.start))
  }

  lemma AckOfMore(init: State, before: seq<Action>, a: Action, j: nat, f: nat, start: nat)
    requires AckOf(init, before, j, f, start)
    ensures AckOf(init, before + [a], j, f, start)
  {
    assert (before + [a])[..j] == before[..j];
  }

  lemma DroppedStays(s: State, t: State, f: nat)
    requires Dropped(s, f) && s.b.flushed <= t.b.flushed
    ensures Dropped(t, f)
  {
    var k :| 0 <= k < |s.b.flushed| && s.b.flushed[k].batch.first == f && !s.b.flushed[k].emitted;
    assert t.b.flushed[k] == s.b.flushed[k];
  }

  lemma MoreKnown(init: State, before: seq<Action>, a: Action)
    requires AllKnown(init, before) && Known(Run(init, before), a, Run(init, before + [a]))
    requires Sticks(Run(init, before), Run(init, before + [a]))
    ensures AllKnown(init, before + [a])
  {
    hide Run, Dropped;
    var s, t := Run(init, before), Run(init, before + [a]);
    var actions := before + [a];
    forall f | f in t.fate && t.fate[f].Done?
      ensures || (t.fate[f] == Done(Lost(Cancelled)) && Dropped(t, f))
              || (t.fate[f].v.Lost? && t.terminalErr == Some(t.fate[f].v.err))
              || (t.fate[f].v.Landed? && exists j :: 0 <= j < |actions| && AckOf(init, actions, j, f, t.fate[f].v.start))
    {
      if f in s.fate && s.fate[f] == t.fate[f] {
        if Dropped(s, f) { DroppedStays(s, t, f); }
        if t.fate[f].v.Landed? {
          var j :| 0 <= j < |before| && AckOf(init, before, j, f, t.fate[f].v.start);
          AckOfMore(init, before, a, j, f, t.fate[f].v.start);
        }
      } else if t.fate[f].v.Landed? {
        assert actions[..|before|] == before;
        assert AckOf(init, actions, |before|, f, t.fate[f].v.start);
      }
    }
  }

  lemma {:induction false} RunKnown(given: Option<B.BatchingOptions>, maxInflightBytes: nat, actions: seq<Action>)
    ensures AllKnown(Init(given, maxInflightBytes), actions)
    decreases |actions|
  {
    hide Inv, Step, Known, AllKnown, Sticks, Init;
    var init := Init(given, maxInflightBytes);
    if actions == [] {
      NoneKnown(given, maxInflightBytes);
    } else {
      var before, a := actions[..|actions| - 1], actions[|actions| - 1];
      RunKnown(given, maxInflightBytes, before);
      InitInv(given, maxInflightBytes);
      RunInv(init, before);
      StepKnown(Run(init, before), a);
      ErrorsStick(Run(init, before), a);
      assert actions == before + [a];
      MoreKnown(init, before, a);
    }
  }

  lemma NoneKnown(given: Option<B.BatchingOptions>, maxInflightBytes: nat)
    ensures AllKnown(Init(given, maxInflightBytes), [])
  {
  }

  // ---- every ticket of a batch ----

  ghost predicate AllAcked(s: State, b: Batch, start: nat) {
    && b.first + B.Count(b) <= |s.outcomes|
    && forall x | b.first <= x < b.first + B.Count(b) :: s.outcomes[x] == [Acked(start, x - b.first)]
  }

  ghost predicate AllLost(s: State, b: Batch, err: Err) {
    && b.first + B.Count(b) <= |s.outcomes|
    && forall x | b.first <= x < b.first + B.Count(b) :: s.outcomes[x] == [Failed(err)]
  }

  /** Ack `j` of the run was for this batch, then in flight. */
  ghost predicate AckFor(init: State, actions: seq<Action>, j: nat, batch: Batch) {
    && j < |actions| && actions[j].Acknowledge?
    && var p := Run(init, actions[..j]);
       actions[j].i < |p.inflight| && p.inflight[actions[j].i].batch == batch
  }

  ghost predicate AckedByRun(init: State, actions: seq<Action>, b: Batch) {
    exists j :: 0 <= j < |actions| && AckFor(init, actions, j, b) && AllAcked(Run(init, actions), b, actions[j].start)
  }

  ghost predicate ResolvedAlike(init: State, actions: seq<Action>, f: B.Flushed) {
    var s := Run(init, actions);
    if f.emitted then AckedByRun(init, actions, f.batch) || (s.terminalErr.Some? && AllLost(s, f.batch, s.terminalErr.value))
    else AllLost(s, f.batch, Cancelled)
  }

  /** Once a ticket is resolved, so is every ticket of its batch, all in the same way. Acked, they share the
      start that one ack of the run gave for this very batch, each with its own place; failed, they share
      the terminal error, or the cancellation that dropped the batch. */
  lemma OutcomesOfABatch(given: Option<B.BatchingOptions>, maxInflightBytes: nat, actions: seq<Action>, i: nat)
    requires var s := Run(Init(given, maxInflightBytes), actions); i < |s.outcomes| && s.outcomes[i] != []
    ensures var init := Init(given, maxInflightBytes);
            var s := Run(init, actions);
            exists k :: 0 <= k < |s.b.flushed| && InBatch(s.b.flushed[k].batch, i) && ResolvedAlike(init, actions, s.b.flushed[k])
  {
    hide Inv, Run, Init, ResolvedAlike;
    var init := Init(given, maxInflightBytes);
    var s := Run(init, actions);
    InitInv(given, maxInflightBytes);
    RunInv(init, actions);
    RunKnown(given, maxInflightBytes, actions);
    var k := ResolvedTile(s, i);
    Alike(given, maxInflightBytes, actions, k);
  }

  lemma ResolvedTile(s: State, i: nat) returns (k: nat)
    requires Inv(s) && i < |s.outcomes| && s.outcomes[i] != []
    ensures k < |s.b.flushed| && InBatch(s.b.flushed[k].batch, i) && FateOf(s.fate, s.b.flushed[k].batch).Done?
  {
    OutcomeEach(s);
    TicketState(s, i);
    k := TileOf(s, i);
    hide Places, ReportsExact, CapacityExact, B.Core, B.Inv, RecordBytes, FateOf, OutcomeOf;
    var f := s.b.flushed[k];
    assert BatchAgrees(f.batch, FateOf(s.fate, f.batch), s.outcomes, s.permits, s.b.accepted);
    assert RecordAgrees(i, f.batch.first, FateOf(s.fate, f.batch), s.outcomes[i], s.permits[i], s.b.accepted[i]);
  }

  /** Batches start at different records. */
  lemma FirstsDiffer(s: State, k: nat, m: nat)
    requires Inv(s) && k < |s.b.flushed| && m < |s.b.flushed| && s.b.flushed[k].batch.first == s.b.flushed[m].batch.first
    ensures k == m
  {
    hide RecordsAgree, ReportsExact, CapacityExact, FatesKnown, Places, B.Inv, B.Core, Ticketed;
    FlushedFacts(s.b, k);
    FlushedFacts(s.b, m);
    if k != m { FlushedApart(s.b, k, m); }
  }

  lemma DroppedFate(s: State, k: nat)
    requires Inv(s) && k < |s.b.flushed| && !s.b.flushed[k].emitted
    ensures FateOf(s.fate, s.b.flushed[k].batch) == Done(Lost(Cancelled))
  {
    hide Books, Places, B.Inv, FateOf;
  }

  lemma DroppedIs(s: State, k: nat)
    requires Inv(s) && k < |s.b.flushed| && Dropped(s, s.b.flushed[k].batch.first)
    ensures !s.b.flushed[k].emitted
  {
    hide Inv;
    var m :| 0 <= m < |s.b.flushed| && s.b.flushed[m].batch.first == s.b.flushed[k].batch.first && !s.b.flushed[m].emitted;
    FirstsDiffer(s, k, m);
  }

  lemma {:induction false} RunGrows(given: Option<B.BatchingOptions>, maxInflightBytes: nat, actions: seq<Action>, j: nat)
    requires j <= |actions|
    ensures var init := Init(given, maxInflightBytes); Run(init, actions[..j]).b.flushed <= Run(init, actions).b.flushed
    decreases |actions|
  {
    hide Inv, Step, Init;
    if j < |actions| {
      var init := Init(given, maxInflightBytes);
      var before := actions[..|actions| - 1];
      assert before[..j] == actions[..j];
      RunGrows(given, maxInflightBytes, before, j);
      InitInv(given, maxInflightBytes);
      RunInv(init, before);
      StepKnown(Run(init, before), actions[|actions| - 1]);
    } else {
      assert actions[..j] == actions;
    }
  }

  /** A batch in flight is among the flushed ones, then and later. */
  lemma AckWasFor(given: Option<B.BatchingOptions>, maxInflightBytes: nat, actions: seq<Action>, j: nat, k: nat, start: nat)
    requires var s := Run(Init(given, maxInflightBytes), actions);
             k < |s.b.flushed| && AckOf(Init(given, maxInflightBytes), actions, j, s.b.flushed[k].batch.first, start)
    ensures AckFor(Init(given, maxInflightBytes), actions, j, Run(Init(given, maxInflightBytes), actions).b.flushed[k].batch)
    ensures Run(Init(given, maxInflightBytes), actions).b.flushed[k].emitted
  {
    hide Inv, Run, Init, FateOf;
    var init := Init(given, maxInflightBytes);
    var s, p := Run(init, actions), Run(init, actions[..j]);
    InitInv(given, maxInflightBytes);
    RunInv(init, actions);
    RunInv(init, actions[..j]);
    RunGrows(given, maxInflightBytes, actions, j);
    HeldFates(p);
    var m := HeldIndex(p, p.inflight[actions[j].i].batch);
    assert s.b.flushed[m] == p.b.flushed[m];
    FirstsDiffer(s, k, m);
  }

  lemma Alike(given: Option<B.BatchingOptions>, maxInflightBytes: nat, actions: seq<Action>, k: nat)
    requires var s := Run(Init(given, maxInflightBytes), actions);
             && Inv(s) && AllKnown(Init(given, maxInflightBytes), actions)
             && k < |s.b.flushed| && FateOf(s.fate, s.b.flushed[k].batch).Done?
    ensures ResolvedAlike(Init(given, maxInflightBytes), actions, Run(Init(given, maxInflightBytes), actions).b.flushed[k])
  {
    hide Inv, Run, Init, Dropped, AckOf, AckFor;
    var init := Init(given, maxInflightBytes);
    var s := Run(init, actions);
    var f := s.b.flushed[k];
    var v := FateOf(s.fate, f.batch).v;
    TileOutcomes(s, k);
    if !f.emitted {
      DroppedFate(s, k);
    } else if v.Landed? {
      var j :| 0 <= j < |actions| && AckOf(init, actions, j, f.batch.first, v.start);
      AckWasFor(given, maxInflightBytes, actions, j, k, v.start);
      AckStart(init, actions, j, f.batch.first, v.start);
      assert AckFor(init, actions, j, f.batch) && AllAcked(s, f.batch, actions[j].start);
    } else if Dropped(s, f.batch.first) {
      DroppedIs(s, k);
    }
  }

  lemma AckStart(init: State, actions: seq<Action>, j: nat, f: nat, start: nat)
    requires AckOf(init, actions, j, f, start)
    ensures actions[j].Acknowledge? && actions[j].start == start
  {
    hide Run;
  }

  lemma TileOutcomes(s: State, k: nat)
    requires Inv(s) && k < |s.b.flushed| && FateOf(s.fate, s.b.flushed[k].batch).Done?
    ensures var b := s.b.flushed[k].batch;
            var v := FateOf(s.fate, b).v;
            if v.Landed? then AllAcked(s, b, v.start) else AllLost(s, b, v.err)
  {
    hide Inv, FateOf;
    var b := s.b.flushed[k].batch;
    OutcomeEach(s);
    BatchBelow(s, k);
    forall x | b.first <= x < b.first + B.Count(b) ensures s.outcomes[x] == [OutcomeOf(FateOf(s.fate, b).v, x - b.first)] { RecordOf(s, k, x); }
  }

  lemma BatchBelow(s: State, k: nat)
    requires Inv(s) && k < |s.b.flushed|
    ensures s.b.flushed[k].batch.first + B.Count(s.b.flushed[k].batch) <= |s.b.accepted|
  {
    hide RecordsAgree, ReportsExact, CapacityExact, FatesKnown, Places, B.Inv, B.Core, Ticketed;
    FlushedFacts(s.b, k);
  }
}
