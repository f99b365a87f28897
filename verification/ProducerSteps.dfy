/** Every step of the producer keeps its invariant. */
module ProducerSteps {
  import opened Options
  import opened Errors
  import opened Records
  import opened Capacity
  import opened Producing
  import B = Batching

  // ---- flushing ----

  lemma FlushRecords(s: State, drop: bool)
    requires Books(s) && s.b.buffer != [] && FatesKnown(s.b.flushed, s.fate, B.Start(s.b))
    ensures var b := B.DoFlush(s.b, drop); RecordsAgree(b.flushed, s.fate, s.outcomes, s.permits, b.accepted, B.Start(b))
  {
    hide B.Tiles, B.FlushedWell, B.Conditional, B.Batches, B.Emitted, B.BarriersCover, B.ItemsOrdered, ReportsExact, CapacityExact, Ticketed;
    var b := B.DoFlush(s.b, drop);
    var batch := B.NextBatch(s.b);
    assert FateOf(s.fate, batch).Queued?;
    assert BatchAgrees(batch, Queued, s.outcomes, s.permits, b.accepted) by {
      hide RecordBytes;
      forall i | batch.first <= i < batch.first + B.Count(batch)
        ensures RecordAgrees(i, batch.first, Queued, s.outcomes[i], s.permits[i], b.accepted[i])
      {
        assert RecordAgrees(i, i, Queued, s.outcomes[i], s.permits[i], s.b.accepted[i]);
      }
    }
  }

  lemma FlushBooks(s: State, drop: bool)
    requires Books(s) && s.b.buffer != [] && FatesKnown(s.b.flushed, s.fate, B.Start(s.b)) && (s.b.channelClosed ==> s.b.closed)
    ensures Books(s.(b := B.DoFlush(s.b, drop)))
  {
    hide RecordsAgree, ReportsExact, CapacityExact, FatesKnown, B.Core;
    FlushRecords(s, drop);
    B.FlushSettles(s.b, drop);
    B.FlushFields(s.b, drop);
  }

  /** A change of fate that concerns no batch of the channel. */
  lemma PlacesElsewhere(s: State, f: nat, x: Fate)
    requires Places(s.b.sent, s.consumed, s.consumer, s.inflight, s.fate, s.appendErr, s.terminalErr)
    requires forall i | 0 <= i < |s.b.sent| && s.b.sent[i].Records? :: s.b.sent[i].batch.first != f
    ensures Places(s.b.sent, s.consumed, s.consumer, s.inflight, s.fate[f := x], s.appendErr, s.terminalErr)
  {
    var fate := s.fate[f := x];
    assert forall i | 0 <= i < |s.b.sent| && s.b.sent[i].Records? :: FateOf(fate, s.b.sent[i].batch) == FateOf(s.fate, s.b.sent[i].batch);
  }

  lemma PlacesSend(s: State, item: B.Item)
    requires Places(s.b.sent, s.consumed, s.consumer, s.inflight, s.fate, s.appendErr, s.terminalErr)
    requires item.Records? ==> FateOf(s.fate, item.batch).Queued?
    ensures Places(s.b.sent + [item], s.consumed, s.consumer, s.inflight, s.fate, s.appendErr, s.terminalErr)
  {
    var sent := s.b.sent + [item];
    assert sent[..s.consumed] == s.b.sent[..s.consumed];
    assert forall j | 0 <= j < s.consumed :: sent[j] == s.b.sent[j];
  }

  lemma FlushKeepsInv(s: State, drop: bool)
    requires Core(s) && s.b.buffer != []
    ensures Core(Flush(s, drop)) && Flush(s, drop).b == B.DoFlush(s.b, drop)
    ensures Flush(s, drop).submission == s.submission
  {
    hide Books, Places, Resolve, AfterResolve, AfterTake, TotalTaken, B.DoFlush;
    var batch := B.NextBatch(s.b);
    var t := s.(b := B.DoFlush(s.b, drop));
    FlushBooks(s, drop);
    B.FlushFields(s.b, drop);
    FlushedStart(s, drop);
    if drop {
      var k := |s.b.flushed|;
      assert t.b.flushed[k].batch == batch;
      ResolveBooks(t, k, Lost(Cancelled));
      BooksSent(s);
      PlacesElsewhere(s, batch.first, Done(Lost(Cancelled)));
      ResolveFields(t, batch, Lost(Cancelled));
    } else {
      PlacesSend(s, B.Records(batch));
    }
  }

  lemma FlushedStart(s: State, drop: bool)
    requires Books(s) && s.b.buffer != []
    ensures B.NextBatch(s.b).first == B.Start(s.b) < B.Start(B.DoFlush(s.b, drop))
  {
    hide B.Tiles, B.FlushedWell, B.Conditional, B.Batches, B.Emitted, B.BarriersCover, B.ItemsOrdered, ReportsExact, CapacityExact, RecordsAgree;
  }

  lemma BooksSent(s: State)
    requires Books(s)
    ensures Distinct(s.b.sent)
    ensures forall i | 0 <= i < |s.b.sent| && s.b.sent[i].Records? ::
              s.b.sent[i].batch.first + B.Count(s.b.sent[i].batch) <= B.Start(s.b) && B.Count(s.b.sent[i].batch) >= 1
  {
    hide B.Core, RecordsAgree, ReportsExact, CapacityExact;
    SentFacts(s.b);
  }

  lemma ResolveFields(s: State, batch: Batch, v: Verdict)
    ensures var t := Resolve(s, batch, v);
            t == s.(cap := t.cap, permits := t.permits, outcomes := t.outcomes, fate := s.fate[batch.first := Done(v)])
  {
    hide TotalTaken, AfterTake, AfterResolve;
  }

  lemma FlushInv(s: State, drop: bool)
    requires Core(s)
    ensures Core(Flush(s, drop)) && Flush(s, drop).b == B.DoFlush(s.b, drop) && Flush(s, drop).b.buffer == []
    ensures Flush(s, drop).submission == s.submission
  {
    hide Core;
    if s.b.buffer != [] {
      FlushKeepsInv(s, drop);
      B.FlushFields(s.b, drop);
    }
  }

  // ---- adding a record ----

  lemma PutRecords(s: State, r: AppendRecord)
    requires RecordsAgree(s.b.flushed, s.fate, s.outcomes, s.permits, s.b.accepted, B.Start(s.b))
    ensures RecordsAgree(s.b.flushed, s.fate, s.outcomes + [[]], s.permits + [RecordBytes(r)], s.b.accepted + [r], B.Start(s.b))
  {
    hide RecordBytes;
    var outcomes, permits, accepted := s.outcomes + [[]], s.permits + [RecordBytes(r)], s.b.accepted + [r];
    forall k | 0 <= k < |s.b.flushed|
      ensures BatchAgrees(s.b.flushed[k].batch, FateOf(s.fate, s.b.flushed[k].batch), outcomes, permits, accepted)
    {
      hide RecordAgrees;
      assert BatchAgrees(s.b.flushed[k].batch, FateOf(s.fate, s.b.flushed[k].batch), s.outcomes, s.permits, s.b.accepted);
    }
  }

  lemma PutReports(s: State)
    requires ReportsExact(s.reports, s.outcomes, s.terminalErr)
    ensures ReportsExact(s.reports, s.outcomes + [[]], s.terminalErr)
  {
    forall k | 0 <= k < |s.reports| ensures ReportExact(s.reports[k], s.outcomes + [[]], s.terminalErr) {
      assert ReportExact(s.reports[k], s.outcomes, s.terminalErr);
      assert forall i | 0 <= i < s.reports[k].before :: (s.outcomes + [[]])[i] == s.outcomes[i];
    }
  }

  lemma PutCapacity(s: State, r: AppendRecord)
    requires CapacityExact(s.cap, s.permits, s.submission) && s.submission == Cleared(r)
    ensures CapacityExact(s.cap, s.permits + [RecordBytes(r)], Free)
  {
    SumAppend(s.permits, [RecordBytes(r)]);
    assert [RecordBytes(r)][1..] == [];
  }

  lemma PutInv(s: State, r: AppendRecord)
    requires Core(s) && s.submission == Cleared(r) && B.Fits(s.b, RecordBytes(r)) && RecordBytes(r) <= s.b.opts.maxMeteredBytes
    ensures Core(Put(s, r)) && Put(s, r).b == B.Put(s.b, r, Some(|s.b.accepted|)) && Put(s, r).b.buffer != []
  {
    hide Places, RecordsAgree, ReportsExact, CapacityExact, FatesKnown, B.Core, RecordBytes, B.Fits;
    B.PutCore(s.b, r, Some(|s.b.accepted|));
    PutStart(s, r);
    PutRecords(s, r);
    PutReports(s);
    PutCapacity(s, r);
  }

  lemma PutStart(s: State, r: AppendRecord)
    requires B.Core(s.b)
    ensures B.Start(B.Put(s.b, r, Some(|s.b.accepted|))) == B.Start(s.b) && |s.b.tickets| == |s.b.accepted|
  {
    hide B.Tiles, B.FlushedWell, B.Conditional, B.Batches, B.Emitted, B.BarriersCover, B.ItemsOrdered;
  }

  /** A change of the batcher that touches neither records nor batches. */
  lemma BatcherFlags(s: State, b: B.State)
    requires Core(s) && B.Core(b) && (b.channelClosed ==> b.closed)
    requires b.flushed == s.b.flushed && b.sent == s.b.sent && b.accepted == s.b.accepted && b.tickets == s.b.tickets && b.buffer == s.b.buffer
    ensures Core(s.(b := b))
  {
    hide Places, RecordsAgree, ReportsExact, CapacityExact, FatesKnown, B.Core;
  }

  lemma GiveBackInv(s: State, r: AppendRecord)
    requires Core(s) && (s.submission == Cleared(r) || s.submission == HasRoom(r))
    ensures Core(GiveBack(s, RecordBytes(r)))
  {
    hide Places, RecordsAgree, ReportsExact, FatesKnown, B.Core, RecordBytes;
    SumOfNaturals(s.permits);
  }

  lemma AddKeeps(s: State, r: AppendRecord, dropBefore: bool, dropAfter: bool)
    requires Inv(s) && s.submission == Cleared(r) && B.Accepts(s.b, r)
    ensures Core(Add(s, r, dropBefore, dropAfter))
    ensures Add(s, r, dropBefore, dropAfter).b == B.DoAdd(s.b, r, Some(|s.b.accepted|), dropBefore, dropAfter)
  {
    hide Core, B.Core, Flush, Put, B.DoFlush, B.Put, B.ArmTimer, B.Full, RecordBytes;
    FlushInv(s, dropBefore);
    var s1 := if B.Fits(s.b, RecordBytes(r)) then s else Flush(s, dropBefore);
    if s1 != s { B.FlushFields(s.b, dropBefore); }
    PutInv(s1, r);
    var s2 := Put(s1, r);
    FlushInv(s2, dropAfter);
    if !B.Full(s2.b) { ArmKeeps(s2); }
  }

  lemma ArmKeeps(s: State)
    requires Core(s) && s.b.buffer != []
    ensures Core(s.(b := B.ArmTimer(s.b)))
  {
    hide Core, B.Core;
    CoreOfBatcher(s);
    ArmCore(s.b);
    BatcherFlags(s, B.ArmTimer(s.b));
  }

  lemma CoreOfBatcher(s: State)
    requires Core(s)
    ensures B.Core(s.b) && (s.b.channelClosed ==> s.b.closed)
  {
  }

  lemma ArmCore(b: B.State)
    requires B.Core(b) && b.buffer != []
    ensures B.Core(B.ArmTimer(b))
  {
    hide B.Tiles, B.FlushedWell, B.Conditional, B.Batches, B.Emitted, B.BarriersCover, B.ItemsOrdered, B.MatchAfter;
  }

  lemma AddInv(s: State, d1: bool, d2: bool)
    requires Inv(s) && s.submission.Cleared?
    ensures Inv(Add(s, s.submission.record, d1, d2))
  {
    hide Core, B.Inv;
    var r := s.submission.record;
    if B.Accepts(s.b, r) {
      AddKeeps(s, r, d1, d2);
      B.AddInv(s.b, r, Some(|s.b.accepted|), d1, d2);
    } else {
      GiveBackInv(s, r);
    }
  }

  // ---- the batcher's other operations ----

  lemma SentBarrier(s: State)
    requires Core(s) && B.Core(s.b.(sent := s.b.sent + [B.Barrier(|s.b.accepted|)]))
    ensures Core(s.(b := s.b.(sent := s.b.sent + [B.Barrier(|s.b.accepted|)])))
  {
    hide Places, RecordsAgree, ReportsExact, CapacityExact, FatesKnown, B.Core;
    PlacesSend(s, B.Barrier(|s.b.accepted|));
  }

  lemma BarrierInv(s: State, drop: bool, cancelled: bool)
    requires Inv(s)
    ensures Inv(Barrier(s, drop, cancelled))
  {
    hide Core, B.Core, Flush, B.DoFlush;
    if !s.b.closed {
      FlushInv(s, drop);
      B.FlushSettles(s.b, drop);
      B.BarrierInv(s.b, drop, cancelled);
      var t := Flush(s, drop);
      if t.b.done || cancelled { BatcherFlags(t, t.b.(done := true)); } else { SentBarrier(t); }
    }
  }

  lemma TimerInv(s: State, q: nat, drop: bool)
    requires Inv(s)
    ensures Inv(Timer(s, q, drop)) && Timer(s, q, drop).b == B.DoTimer(s.b, q, drop)
  {
    hide Core, B.Core, Flush;
    B.TimerInv(s.b, q, drop);
    B.TimerNeedsBuffer(s.b);
    FlushInv(s, drop);
  }

  lemma CloseInv(s: State, drop: bool)
    requires Inv(s)
    ensures Inv(CloseB(s, drop)) && CloseB(s, drop).b == B.DoClose(s.b, drop)
  {
    hide Core, B.Core, Flush;
    if !s.b.closed {
      B.CloseInv(s.b, drop);
      FlushInv(s, drop);
      var t := Flush(s, drop);
      BatcherFlags(t, t.b.(closed := true, timer := false));
    }
  }

  lemma FlagsInv(s: State, a: B.Action)
    requires Inv(s) && (a.CloseChannel? || a.CancelContext?)
    ensures Inv(s.(b := B.Step(s.b, a)))
  {
    hide Core, B.Core;
    B.StepInv(s.b, a);
    BatcherFlags(s, B.Step(s.b, a));
  }

  // ---- Submit, up to adding the record ----

  /** A change of the reservation, with the tracker following it. */
  lemma SubmissionInv(s: State, cap: Tracker, submission: Submission)
    requires Inv(s) && CapacityExact(cap, s.permits, submission) && WaitsClear(submission, s.b.buffer)
    ensures Inv(s.(cap := cap, submission := submission))
  {
    hide Places, RecordsAgree, ReportsExact, CapacityExact, FatesKnown, B.Core, B.Inv;
  }

  lemma ReserveExact(s: State, r: AppendRecord)
    requires Inv(s) && Reservation(s.submission) == 0 && HasCapacity(s.cap, RecordBytes(r))
    ensures CapacityExact(Reserve(s.cap, RecordBytes(r)), s.permits, HasRoom(r))
  {
    hide Places, RecordsAgree, ReportsExact, FatesKnown, B.Core, B.Inv, RecordBytes;
  }

  lemma CapacityIs(s: State)
    requires Inv(s)
    ensures CapacityExact(s.cap, s.permits, s.submission) && WaitsClear(s.submission, s.b.buffer)
  {
    hide Places, RecordsAgree, ReportsExact, FatesKnown, B.Core, B.Inv, CapacityExact, WaitsClear;
  }

  lemma StartInv(s: State, r: AppendRecord, contextDone: bool)
    requires Inv(s)
    ensures Inv(Start(s, r, contextDone))
  {
    hide Inv, Reserve, HasCapacity, RecordBytes;
    CapacityIs(s);
    if s.submission.Free? {
      SubmissionInv(s, s.cap, NeedsFlush(r));
      if HasCapacity(s.cap, RecordBytes(r)) {
        ReserveExact(s, r);
        SubmissionInv(s, Reserve(s.cap, RecordBytes(r)), HasRoom(r));
      }
    }
  }

  lemma RoomInv(s: State, contextDone: bool)
    requires Inv(s)
    ensures Inv(Room(s, contextDone))
  {
    hide Inv, Reserve, HasCapacity, RecordBytes;
    CapacityIs(s);
    if s.submission.Waiting? {
      var r := s.submission.record;
      SubmissionInv(s, s.cap, Free);
      if HasCapacity(s.cap, RecordBytes(r)) {
        ReserveExact(s, r);
        SubmissionInv(s, Reserve(s.cap, RecordBytes(r)), HasRoom(r));
      }
    }
  }

  lemma FlushRoomInv(s: State, drop: bool)
    requires Inv(s)
    ensures Inv(FlushRoom(s, drop))
  {
    hide Core, B.Core, Flush;
    if s.submission.NeedsFlush? {
      FlushInv(s, drop);
      B.FlushSettles(s.b, drop);
      var t := Flush(s, drop);
      CapacityIs(t);
      CapacityIs(s);
      var u := if drop && s.b.buffer != [] then Free else Waiting(s.submission.record);
      SubmissionInv(t, t.cap, u);
      SubmissionInv(s, s.cap, Free);
    }
  }

  lemma CheckInv(s: State)
    requires Inv(s)
    ensures Inv(Check(s))
  {
    hide Core, B.Inv;
    if s.submission.HasRoom? {
      CapacityIs(s);
      SubmissionInv(s, s.cap, Cleared(s.submission.record));
      GiveBackInv(s, s.submission.record);
    }
  }

  lemma GiveUpInv(s: State)
    requires Inv(s) && (s.submission.NeedsFlush? || s.submission.Waiting?)
    ensures Inv(s.(submission := Free))
  {
    hide Inv;
    CapacityIs(s);
    SubmissionInv(s, s.cap, Free);
  }

  lemma FlagInv(s: State, closing: bool, cancelled: bool, shut: bool)
    requires Inv(s)
    ensures Inv(s.(closing := closing, cancelled := cancelled, cap := s.cap.(closed := shut)))
  {
    hide Places, RecordsAgree, ReportsExact, FatesKnown, B.Core, B.Inv;
  }

  // ---- terminal errors ----

  lemma TerminalReports(s: State, err: Err)
    requires ReportsExact(s.reports, s.outcomes, None)
    ensures ReportsExact(s.reports, s.outcomes, Some(err))
  {
    forall k | 0 <= k < |s.reports| ensures ReportExact(s.reports[k], s.outcomes, Some(err)) {
      assert ReportExact(s.reports[k], s.outcomes, None);
    }
  }

  lemma TerminalPlaces(s: State, err: Err)
    requires Places(s.b.sent, s.consumed, s.consumer, s.inflight, s.fate, s.appendErr, None)
    ensures Places(s.b.sent, s.consumed, s.consumer, s.inflight, s.fate, s.appendErr, Some(err))
  {
    hide Placed, Held, LostOne;
  }

  lemma TerminalInv(s: State, err: Err)
    requires Inv(s)
    ensures Inv(Terminal(s, err)) && Terminal(s, err).terminalErr.Some?
  {
    hide Places, RecordsAgree, ReportsExact, FatesKnown, B.Core, B.Inv;
    if s.terminalErr.None? {
      TerminalReports(s, err);
      TerminalPlaces(s, err);
    }
  }

  // ---- batches changing hands ----

  lemma MoveRecords(s: State, batch: Batch, x: Fate)
    requires RecordsAgree(s.b.flushed, s.fate, s.outcomes, s.permits, s.b.accepted, B.Start(s.b))
    requires !FateOf(s.fate, batch).Done? && !x.Done?
    ensures RecordsAgree(s.b.flushed, s.fate[batch.first := x], s.outcomes, s.permits, s.b.accepted, B.Start(s.b))
  {
    hide RecordBytes;
    var fate := s.fate[batch.first := x];
    forall k | 0 <= k < |s.b.flushed|
      ensures BatchAgrees(s.b.flushed[k].batch, FateOf(fate, s.b.flushed[k].batch), s.outcomes, s.permits, s.b.accepted)
    {
      assert BatchAgrees(s.b.flushed[k].batch, FateOf(s.fate, s.b.flushed[k].batch), s.outcomes, s.permits, s.b.accepted);
    }
  }

  lemma MoveFates(s: State, batch: Batch, x: Fate)
    requires FatesKnown(s.b.flushed, s.fate, B.Start(s.b)) && batch.first < B.Start(s.b) && !FateOf(s.fate, batch).Done?
    ensures FatesKnown(s.b.flushed, s.fate[batch.first := x], B.Start(s.b))
  {
  }

  /** The books of a state in which `batch`, not done before, is in other hands. */
  lemma MoveInv(s: State, t: State, batch: Batch, x: Fate)
    requires Inv(s) && B.Records(batch) in s.b.sent && !FateOf(s.fate, batch).Done? && !x.Done?
    requires t == s.(consumed := t.consumed, consumer := t.consumer, inflight := t.inflight, fate := s.fate[batch.first := x])
    requires Places(t.b.sent, t.consumed, t.consumer, t.inflight, t.fate, t.appendErr, t.terminalErr)
    ensures Inv(t)
  {
    hide Places, RecordsAgree, ReportsExact, CapacityExact, FatesKnown, B.Core, B.Inv, Ticketed;
    BooksSent(s);
    MoveRecords(s, batch, x);
    MoveFates(s, batch, x);
  }

  /** A batch that was not done is resolved, whoever held it. */
  lemma DoneInv(s: State, t: State, batch: Batch, v: Verdict)
    requires Inv(s) && B.Records(batch) in s.b.sent && !FateOf(s.fate, batch).Done?
    requires t == s.(consumed := t.consumed, consumer := t.consumer, inflight := t.inflight, appendErr := t.appendErr)
    requires Places(t.b.sent, t.consumed, t.consumer, t.inflight, t.fate[batch.first := Done(v)], t.appendErr, t.terminalErr)
    ensures Inv(Resolve(t, batch, v))
  {
    hide Places, RecordsAgree, ReportsExact, CapacityExact, FatesKnown, B.Core, B.Inv, Ticketed, Resolve;
    BooksSent(s);
    MoveFates(s, batch, Done(v));
    var k := SentIndex(s.b, batch);
    ResolveBooks(t, k, v);
    ResolveFields(t, batch, v);
  }

  /** The last conjunct of `Held` and the batches ahead of the consumer. */
  lemma TakePlaces(s: State)
    requires Places(s.b.sent, s.consumed, s.consumer, s.inflight, s.fate, s.appendErr, s.terminalErr) && Distinct(s.b.sent)
    requires s.consumer.Idle? && s.consumed < |s.b.sent| && s.b.sent[s.consumed].Records?
    ensures var batch := s.b.sent[s.consumed].batch;
            Places(s.b.sent, s.consumed + 1, Submitting(batch), s.inflight, s.fate[batch.first := AtConsumer], s.appendErr, s.terminalErr)
  {
    var sent, n := s.b.sent, s.consumed;
    var batch := sent[n].batch;
    var fate := s.fate[batch.first := AtConsumer];
    assert sent[..n + 1] == sent[..n] + [sent[n]];
    assert forall j | 0 <= j < |sent| && j != n && sent[j].Records? :: FateOf(fate, sent[j].batch) == FateOf(s.fate, sent[j].batch);
    if s.appendErr.Some? { KeepsLost(sent, n, s.fate, n + 1, fate, s.appendErr.value); }
  }

  lemma KeepsLost(sent: seq<B.Item>, n: nat, fate: map<nat, Fate>, n': nat, fate': map<nat, Fate>, err: Err)
    requires n <= n' <= |sent| && LostOne(sent, n, fate, err)
    requires forall j | 0 <= j < n && sent[j].Records? && FateOf(fate, sent[j].batch).Done? :: FateOf(fate', sent[j].batch) == FateOf(fate, sent[j].batch)
    ensures LostOne(sent, n', fate', err)
  {
    var j :| 0 <= j < n && sent[j].Records? && FateOf(fate, sent[j].batch) == Done(Lost(err));
    assert FateOf(fate', sent[j].batch) == Done(Lost(err));
  }

  /** The append error after `batch` was lost to `err`, or unchanged after an ack. */
  function NextAppendErr(appendErr: Option<Err>, v: Verdict): Option<Err> {
    if v.Lost? && appendErr.None? then Some(v.err) else appendErr
  }

  /** The j-th item of the channel is done: what that does to the record of errors. */
  lemma DoneErrors(s: State, j: nat, n: nat, v: Verdict)
    requires ErrorsAgree(s.b.sent, s.consumed, s.fate, s.appendErr, s.terminalErr) && Distinct(s.b.sent)
    requires j < n <= |s.b.sent| && s.consumed <= n && (n == s.consumed || (n == s.consumed + 1 && j == s.consumed))
    requires s.b.sent[j].Records? && !FateOf(s.fate, s.b.sent[j].batch).Done?
    requires v.Lost? ==> s.terminalErr == Some(v.err)
    ensures ErrorsAgree(s.b.sent, n, s.fate[s.b.sent[j].batch.first := Done(v)], NextAppendErr(s.appendErr, v), s.terminalErr)
  {
    var sent := s.b.sent;
    var fate := s.fate[sent[j].batch.first := Done(v)];
    assert forall i | 0 <= i < |sent| && i != j && sent[i].Records? :: FateOf(fate, sent[i].batch) == FateOf(s.fate, sent[i].batch);
    assert FateOf(fate, sent[j].batch) == Done(v);
    if s.appendErr.Some? { KeepsLost(sent, s.consumed, s.fate, n, fate, s.appendErr.value); }
    else if v.Lost? { assert LostOne(sent, n, fate, v.err); }
  }

  /** Resolved straight from the channel. */
  lemma DoneFromChannel(s: State, v: Verdict)
    requires Places(s.b.sent, s.consumed, s.consumer, s.inflight, s.fate, s.appendErr, s.terminalErr) && Distinct(s.b.sent)
    requires s.consumer.Idle? && s.consumed < |s.b.sent| && s.b.sent[s.consumed].Records?
    requires v.Lost? ==> s.terminalErr == Some(v.err)
    ensures Places(s.b.sent, s.consumed + 1, s.consumer, s.inflight, s.fate[s.b.sent[s.consumed].batch.first := Done(v)],
                   NextAppendErr(s.appendErr, v), s.terminalErr)
  {
    hide ErrorsAgree;
    var sent, n := s.b.sent, s.consumed;
    var fate := s.fate[sent[n].batch.first := Done(v)];
    assert sent[..n + 1] == sent[..n] + [sent[n]];
    assert forall j | 0 <= j < |sent| && j != n && sent[j].Records? :: FateOf(fate, sent[j].batch) == FateOf(s.fate, sent[j].batch);
    DoneErrors(s, n, n + 1, v);
  }

  lemma SentAt(s: State, batch: Batch) returns (j: nat)
    requires s.consumed <= |s.b.sent| && B.Records(batch) in s.b.sent[..s.consumed]
    ensures j < s.consumed && s.b.sent[j] == B.Records(batch)
  {
    j :| 0 <= j < s.consumed && s.b.sent[..s.consumed][j] == B.Records(batch);
  }

  /** Only the j-th item of the channel changes fate. */
  ghost predicate OnlyAt(sent: seq<B.Item>, j: nat, fate: map<nat, Fate>, fate': map<nat, Fate>) {
    forall i | 0 <= i < |sent| && i != j && sent[i].Records? :: FateOf(fate', sent[i].batch) == FateOf(fate, sent[i].batch)
  }

  lemma ChangesOnlyAt(sent: seq<B.Item>, j: nat, fate: map<nat, Fate>, x: Fate)
    requires Distinct(sent) && j < |sent| && sent[j].Records?
    ensures OnlyAt(sent, j, fate, fate[sent[j].batch.first := x]) && FateOf(fate[sent[j].batch.first := x], sent[j].batch) == x
  {
  }

  /** Resolved by the consumer. */
  lemma DoneFromConsumer(s: State, v: Verdict)
    requires Places(s.b.sent, s.consumed, s.consumer, s.inflight, s.fate, s.appendErr, s.terminalErr) && Distinct(s.b.sent)
    requires s.consumer.Failing?
    requires v.Lost? ==> s.terminalErr == Some(v.err)
    ensures Places(s.b.sent, s.consumed, Idle, s.inflight, s.fate[s.consumer.batch.first := Done(v)], NextAppendErr(s.appendErr, v), s.terminalErr)
  {
    hide ErrorsAgree, Distinct, Flying;
    var j := SentAt(s, s.consumer.batch);
    ChangesOnlyAt(s.b.sent, j, s.fate, Done(v));
    DoneErrors(s, j, s.consumed, v);
  }

  lemma StillFlying(inflight: seq<Flight>, m: nat, batch: Batch)
    requires Flying(inflight, batch) && m < |inflight| && inflight[m].batch != batch
    ensures Flying(Without(inflight, m), batch)
  {
    var n :| 0 <= n < |inflight| && inflight[n].batch == batch;
    assert Without(inflight, m)[if n < m then n else n - 1].batch == batch;
  }

  lemma FlightPlaced(s: State, m: nat, j: nat, fate: map<nat, Fate>)
    requires Placed(s.b.sent, s.consumed, s.consumer, s.inflight, s.fate)
    requires m < |s.inflight| && j < s.consumed && s.b.sent[j] == B.Records(s.inflight[m].batch)
    requires OnlyAt(s.b.sent, j, s.fate, fate) && FateOf(fate, s.b.sent[j].batch).Done?
    ensures Placed(s.b.sent, s.consumed, s.consumer, Without(s.inflight, m), fate)
  {
    hide Flying, FateOf, Without;
    forall i | 0 <= i < s.consumed && i != j && s.b.sent[i].Records? && FateOf(fate, s.b.sent[i].batch).InFlight?
      ensures Flying(Without(s.inflight, m), s.b.sent[i].batch)
    {
      StillFlying(s.inflight, m, s.b.sent[i].batch);
    }
  }

  /** Resolved by the goroutine waiting for its ack. */
  lemma DoneFromFlight(s: State, m: nat, v: Verdict)
    requires Places(s.b.sent, s.consumed, s.consumer, s.inflight, s.fate, s.appendErr, s.terminalErr) && Distinct(s.b.sent)
    requires m < |s.inflight|
    requires v.Lost? ==> s.terminalErr == Some(v.err)
    ensures Places(s.b.sent, s.consumed, s.consumer, Without(s.inflight, m), s.fate[s.inflight[m].batch.first := Done(v)],
                   NextAppendErr(s.appendErr, v), s.terminalErr)
  {
    var batch := s.inflight[m].batch;
    assert FateOf(s.fate, batch).InFlight?;
    hide ErrorsAgree, Distinct, Flying, Placed, FailuresAgree, Without, OnlyAt, FateOf, NextAppendErr;
    var j := SentAt(s, batch);
    hide Held;
    ChangesOnlyAt(s.b.sent, j, s.fate, Done(v));
    DoneErrors(s, j, s.consumed, v);
    FlightsLeft(s, m, s.fate[batch.first := Done(v)]);
    FlightPlaced(s, m, j, s.fate[batch.first := Done(v)]);
  }

  lemma FlightsLeft(s: State, m: nat, fate: map<nat, Fate>)
    requires Held(s.b.sent, s.consumed, s.consumer, s.inflight, s.fate) && FailuresAgree(s.consumer, s.inflight, s.terminalErr)
    requires m < |s.inflight| && exists v :: fate == s.fate[s.inflight[m].batch.first := Done(v)]
    ensures Held(s.b.sent, s.consumed, s.consumer, Without(s.inflight, m), fate) && FailuresAgree(s.consumer, Without(s.inflight, m), s.terminalErr)
  {
    var left := Without(s.inflight, m);
    assert forall n | 0 <= n < |left| :: left[n] == s.inflight[if n < m then n else n + 1];
  }

  lemma FlyingMore(inflight: seq<Flight>, f: Flight, batch: Batch)
    requires Flying(inflight, batch) || f.batch == batch
    ensures Flying(inflight + [f], batch)
  {
    if f.batch == batch {
      assert (inflight + [f])[|inflight|].batch == batch;
    } else {
      var n :| 0 <= n < |inflight| && inflight[n].batch == batch;
      assert (inflight + [f])[n].batch == batch;
    }
  }

  lemma TakenPlaced(s: State, j: nat, fate: map<nat, Fate>)
    requires Placed(s.b.sent, s.consumed, s.consumer, s.inflight, s.fate)
    requires s.consumer.Submitting? && j < s.consumed && s.b.sent[j] == B.Records(s.consumer.batch)
    requires OnlyAt(s.b.sent, j, s.fate, fate) && FateOf(fate, s.b.sent[j].batch).InFlight?
    requires forall i | 0 <= i < s.consumed && i != j && s.b.sent[i].Records? :: s.b.sent[i].batch != s.consumer.batch
    ensures Placed(s.b.sent, s.consumed, Idle, s.inflight + [Flight(s.consumer.batch, None)], fate)
  {
    hide Flying, FateOf;
    forall i | 0 <= i < s.consumed && s.b.sent[i].Records? && FateOf(fate, s.b.sent[i].batch).InFlight?
      ensures Flying(s.inflight + [Flight(s.consumer.batch, None)], s.b.sent[i].batch)
    {
      FlyingMore(s.inflight, Flight(s.consumer.batch, None), s.b.sent[i].batch);
    }
  }

  lemma TakenHeld(s: State)
    requires Held(s.b.sent, s.consumed, s.consumer, s.inflight, s.fate) && s.consumer.Submitting?
    ensures Held(s.b.sent, s.consumed, Idle, s.inflight + [Flight(s.consumer.batch, None)], s.fate[s.consumer.batch.first := InFlight])
  {
  }

  lemma MovedErrors(s: State, j: nat, x: Fate)
    requires ErrorsAgree(s.b.sent, s.consumed, s.fate, s.appendErr, s.terminalErr) && Distinct(s.b.sent)
    requires j < s.consumed && s.b.sent[j].Records? && !FateOf(s.fate, s.b.sent[j].batch).Done? && !x.Done?
    ensures ErrorsAgree(s.b.sent, s.consumed, s.fate[s.b.sent[j].batch.first := x], s.appendErr, s.terminalErr)
  {
    var fate := s.fate[s.b.sent[j].batch.first := x];
    if s.appendErr.Some? { KeepsLost(s.b.sent, s.consumed, s.fate, s.consumed, fate, s.appendErr.value); }
  }

  lemma TakenPlaces(s: State)
    requires Places(s.b.sent, s.consumed, s.consumer, s.inflight, s.fate, s.appendErr, s.terminalErr) && Distinct(s.b.sent)
    requires s.consumer.Submitting?
    ensures Places(s.b.sent, s.consumed, Idle, s.inflight + [Flight(s.consumer.batch, None)], s.fate[s.consumer.batch.first := InFlight],
                   s.appendErr, s.terminalErr)
  {
    assert FateOf(s.fate, s.consumer.batch).AtConsumer?;
    hide ErrorsAgree, Flying, Placed, OnlyAt, FateOf;
    var j := SentAt(s, s.consumer.batch);
    hide Held;
    ChangesOnlyAt(s.b.sent, j, s.fate, InFlight);
    MovedErrors(s, j, InFlight);
    TakenHeld(s);
    TakenPlaced(s, j, s.fate[s.consumer.batch.first := InFlight]);
  }

  // ---- the consumer's steps ----

  lemma CoreParts(s: State)
    requires Inv(s)
    ensures Places(s.b.sent, s.consumed, s.consumer, s.inflight, s.fate, s.appendErr, s.terminalErr)
    ensures Distinct(s.b.sent) && s.consumed <= |s.b.sent|
  {
    hide RecordsAgree, ReportsExact, CapacityExact, FatesKnown, B.Core, B.Inv;
    BooksSent(s);
  }

  lemma ChannelHead(s: State)
    requires Inv(s) && s.consumed < |s.b.sent| && s.b.sent[s.consumed].Records?
    ensures FateOf(s.fate, s.b.sent[s.consumed].batch).Queued?
  {
    hide Books, FatesKnown, Held, ErrorsAgree, FailuresAgree, B.Inv;
  }

  lemma TakeInv(s: State)
    requires Inv(s)
    ensures Inv(TakeItem(s))
  {
    hide Inv, Places, Resolve, Distinct, FateOf;
    CoreParts(s);
    if s.consumer.Idle? && s.consumed < |s.b.sent| {
      var item := s.b.sent[s.consumed];
      if item.Barrier? {
        TakeBarrierInv(s);
      } else if s.terminalErr.Some? {
        ChannelHead(s);
        var v := Lost(s.terminalErr.value);
        DoneFromChannel(s, v);
        DoneInv(s, s.(consumed := s.consumed + 1, appendErr := NextAppendErr(s.appendErr, v)), item.batch, v);
      } else {
        ChannelHead(s);
        TakePlaces(s);
        MoveInv(s, TakeItem(s), item.batch, AtConsumer);
      }
    }
  }

  lemma TakeBarrierInv(s: State)
    requires Inv(s) && s.consumer.Idle? && s.consumed < |s.b.sent| && s.b.sent[s.consumed].Barrier?
    ensures Inv(s.(consumed := s.consumed + 1, consumer := AtBarrier(s.b.sent[s.consumed].before)))
  {
    hide Books, FatesKnown, B.Inv, FateOf, Flying;
    var sent, n := s.b.sent, s.consumed;
    assert sent[..n + 1] == sent[..n] + [sent[n]];
    BarrierBooks(s, n + 1, AtBarrier(sent[n].before));
    if s.appendErr.Some? { KeepsLost(sent, n, s.fate, n + 1, s.fate, s.appendErr.value); }
  }

  /** The books do not mention the consumer's place. */
  lemma BarrierBooks(s: State, consumed: nat, consumer: Consumer)
    requires Books(s)
    ensures Books(s.(consumed := consumed, consumer := consumer))
  {
  }

  lemma HeldFates(s: State)
    requires Inv(s)
    ensures s.consumer.Submitting? || s.consumer.Failing? ==>
              FateOf(s.fate, s.consumer.batch).AtConsumer? && B.Records(s.consumer.batch) in s.b.sent
    ensures forall m | 0 <= m < |s.inflight| :: FateOf(s.fate, s.inflight[m].batch).InFlight? && B.Records(s.inflight[m].batch) in s.b.sent
    ensures s.consumer.Failing? ==> s.terminalErr == Some(s.consumer.err)
    ensures forall m | 0 <= m < |s.inflight| && s.inflight[m].failed.Some? :: s.terminalErr == s.inflight[m].failed
  {
    hide Books, FatesKnown, Placed, ErrorsAgree, B.Inv, FateOf;
  }

  lemma AcceptedInv(s: State)
    requires Inv(s)
    ensures Inv(Accepted(s))
  {
    hide Inv, Places, Distinct, FateOf;
    CoreParts(s);
    HeldFates(s);
    if s.consumer.Submitting? {
      TakenPlaces(s);
      MoveInv(s, Accepted(s), s.consumer.batch, InFlight);
    }
  }

  lemma FailingInv(s: State)
    requires Inv(s) && s.consumer.Submitting? && s.terminalErr.Some?
    ensures Inv(s.(consumer := Failing(s.consumer.batch, s.terminalErr.value)))
  {
    hide Books, FatesKnown, B.Inv, ErrorsAgree, FateOf, Flying;
    BarrierBooks(s, s.consumed, Failing(s.consumer.batch, s.terminalErr.value));
  }

  lemma RejectedInv(s: State, err: Err)
    requires Inv(s)
    ensures Inv(Rejected(s, err))
  {
    hide Inv;
    if s.consumer.Submitting? {
      TerminalInv(s, err);
      FailingInv(Terminal(s, err));
    }
  }

  lemma FailNowInv(s: State)
    requires Inv(s)
    ensures Inv(FailNow(s))
  {
    hide Inv, Places, Distinct, FateOf, Resolve;
    CoreParts(s);
    HeldFates(s);
    if s.consumer.Failing? && s.inflight == [] {
      var v := Lost(s.consumer.err);
      DoneFromConsumer(s, v);
      DoneInv(s, s.(consumer := Idle, appendErr := NextAppendErr(s.appendErr, v)), s.consumer.batch, v);
    }
  }

  lemma FlightDoneInv(s: State, i: nat, v: Verdict)
    requires Inv(s) && i < |s.inflight| && (v.Lost? ==> s.terminalErr == Some(v.err))
    ensures Inv(Resolve(s.(inflight := Without(s.inflight, i), appendErr := NextAppendErr(s.appendErr, v)), s.inflight[i].batch, v))
  {
    hide Inv, Places, Distinct, FateOf, Resolve;
    CoreParts(s);
    HeldFates(s);
    DoneFromFlight(s, i, v);
    DoneInv(s, s.(inflight := Without(s.inflight, i), appendErr := NextAppendErr(s.appendErr, v)), s.inflight[i].batch, v);
  }

  lemma AckInv(s: State, i: nat, start: nat)
    requires Inv(s)
    ensures Inv(Ack(s, i, start))
  {
    hide Inv, Resolve;
    if i < |s.inflight| && s.inflight[i].failed.None? { FlightDoneInv(s, i, Landed(start)); }
  }

  lemma DispatchOneInv(s: State, i: nat)
    requires Inv(s)
    ensures Inv(DispatchOne(s, i))
  {
    hide Inv, Resolve;
    HeldFates(s);
    if i < |s.inflight| && s.inflight[i].failed.Some? { FlightDoneInv(s, i, Lost(s.inflight[i].failed.value)); }
  }

  lemma SameFlights(inflight: seq<Flight>, i: nat, failed: Option<Err>, batch: Batch)
    requires i < |inflight| && Flying(inflight, batch)
    ensures Flying(inflight[i := Flight(inflight[i].batch, failed)], batch)
  {
    var n :| 0 <= n < |inflight| && inflight[n].batch == batch;
    assert inflight[i := Flight(inflight[i].batch, failed)][n].batch == batch;
  }

  lemma MarkPlaced(s: State, i: nat)
    requires Placed(s.b.sent, s.consumed, s.consumer, s.inflight, s.fate) && i < |s.inflight|
    ensures Placed(s.b.sent, s.consumed, s.consumer, s.inflight[i := Flight(s.inflight[i].batch, s.terminalErr)], s.fate)
  {
    hide Flying, FateOf;
    forall j | 0 <= j < s.consumed && s.b.sent[j].Records? && FateOf(s.fate, s.b.sent[j].batch).InFlight?
      ensures Flying(s.inflight[i := Flight(s.inflight[i].batch, s.terminalErr)], s.b.sent[j].batch)
    {
      SameFlights(s.inflight, i, s.terminalErr, s.b.sent[j].batch);
    }
  }

  lemma MarkInv(s: State, i: nat)
    requires Inv(s) && i < |s.inflight| && s.terminalErr.Some?
    ensures Inv(s.(inflight := s.inflight[i := Flight(s.inflight[i].batch, s.terminalErr)]))
  {
    hide FatesKnown, B.Inv, B.Core, ErrorsAgree, Placed, FateOf, Flying, RecordsAgree, ReportsExact, CapacityExact;
    MarkPlaced(s, i);
  }

  lemma NackInv(s: State, i: nat, err: Err)
    requires Inv(s)
    ensures Inv(Nack(s, i, err))
  {
    hide Inv;
    if i < |s.inflight| && s.inflight[i].failed.None? {
      TerminalInv(s, err);
      MarkInv(Terminal(s, err), i);
    }
  }

  // ---- barriers ----

  /** At a barrier with no ack in flight, the batches ahead of it are done. */
  lemma AheadIsDone(s: State, j: nat)
    requires Inv(s) && s.consumer.AtBarrier? && s.inflight == [] && j < s.consumed && s.b.sent[j].Records?
    ensures FateOf(s.fate, s.b.sent[j].batch).Done?
    ensures s.appendErr.None? ==> FateOf(s.fate, s.b.sent[j].batch).v.Landed?
  {
    hide Books, FatesKnown, Held, FailuresAgree, B.Inv, FateOf;
  }

  /** The batch a record went out with, ahead of the barrier that covers it. */
  lemma CoveredBatch(b: B.State, j: nat, i: nat) returns (k: nat, p: nat)
    requires B.Core(b) && j < |b.sent| && b.sent[j].Barrier? && i < b.sent[j].before
    ensures k < |b.flushed| && p < j && b.sent[p] == B.Records(b.flushed[k].batch)
    ensures b.flushed[k].batch.first <= i < b.flushed[k].batch.first + B.Count(b.flushed[k].batch)
  {
    hide B.FlushedWell, B.Batches, B.Emitted, B.ItemsOrdered, B.MatchAfter, B.BufferWell, B.Conditional, B.Tiles;
    k := B.TileAt(b.flushed, B.Start(b), i);
    p :| 0 <= p < j && b.sent[..j][p] == B.Records(b.flushed[k].batch);
  }

  lemma RecordOf(s: State, k: nat, i: nat)
    requires Inv(s) && k < |s.b.flushed| && FateOf(s.fate, s.b.flushed[k].batch).Done?
    requires s.b.flushed[k].batch.first <= i < s.b.flushed[k].batch.first + B.Count(s.b.flushed[k].batch)
    ensures i < |s.outcomes| && s.outcomes[i] == [OutcomeOf(FateOf(s.fate, s.b.flushed[k].batch).v, i - s.b.flushed[k].batch.first)]
  {
    hide B.Core, B.Inv, Places, FatesKnown, ReportsExact, CapacityExact, FateOf, OutcomeOf, RecordBytes;
    assert BatchAgrees(s.b.flushed[k].batch, FateOf(s.fate, s.b.flushed[k].batch), s.outcomes, s.permits, s.b.accepted);
    assert RecordAgrees(i, s.b.flushed[k].batch.first, FateOf(s.fate, s.b.flushed[k].batch), s.outcomes[i], s.permits[i], s.b.accepted[i]);
  }

  lemma BarrierItem(s: State)
    requires Inv(s) && s.consumer.AtBarrier?
    ensures s.consumed > 0 && s.consumed <= |s.b.sent| && s.b.sent[s.consumed - 1] == B.Barrier(s.consumer.before)
    ensures s.consumer.before <= |s.outcomes| == |s.b.accepted|
    ensures B.Core(s.b)
    ensures s.appendErr.Some? ==> s.appendErr == s.terminalErr && LostOne(s.b.sent, s.consumed, s.fate, s.appendErr.value)
  {
    hide Placed, FailuresAgree, FatesKnown, ReportsExact, CapacityExact, LostOne;
    hide B.FlushedWell, B.Batches, B.Emitted, B.ItemsOrdered, B.MatchAfter, B.Conditional, B.Tiles;
  }

  lemma CoveredRecord(s: State, i: nat)
    requires Inv(s) && s.consumer.AtBarrier? && s.inflight == [] && i < s.consumer.before
    ensures i < |s.outcomes| && |s.outcomes[i]| == 1 && (s.appendErr.None? ==> s.outcomes[i][0].Acked?)
  {
    hide Inv, FateOf, LostOne, B.Core;
    BarrierItem(s);
    var k, p := CoveredBatch(s.b, s.consumed - 1, i);
    AheadIsDone(s, p);
    RecordOf(s, k, i);
  }

  /** A lost batch ahead of the barrier has a record that the barrier covers. */
  lemma LostRecord(s: State) returns (i: nat)
    requires Inv(s) && s.consumer.AtBarrier? && s.appendErr.Some?
    ensures i < s.consumer.before <= |s.outcomes| && s.outcomes[i] == [Failed(s.appendErr.value)]
  {
    hide Inv, FateOf, B.Core;
    BarrierItem(s);
    var j :| 0 <= j < s.consumed && s.b.sent[j].Records? && FateOf(s.fate, s.b.sent[j].batch) == Done(Lost(s.appendErr.value));
    i := s.b.sent[j].batch.first;
    var k := SentIndex(s.b, s.b.sent[j].batch);
    SentBefore(s, j);
    RecordOf(s, k, i);
  }

  lemma SentBefore(s: State, j: nat)
    requires Inv(s) && j < s.consumed - 1 && s.consumed <= |s.b.sent| && s.b.sent[j].Records? && s.b.sent[s.consumed - 1].Barrier?
    ensures B.Count(s.b.sent[j].batch) >= 1 && s.b.sent[j].batch.first < s.b.sent[s.consumed - 1].before
  {
    hide RecordsAgree, ReportsExact, CapacityExact, FatesKnown, Places;
    hide B.FlushedWell, B.Batches, B.Emitted, B.MatchAfter, B.Conditional, B.Tiles, B.BarriersCover, B.BufferWell;
    BooksSent(s);
  }

  lemma AnswerExact(s: State)
    requires Inv(s) && s.consumer.AtBarrier? && s.inflight == []
    ensures ReportExact(Report(s.consumer.before, s.appendErr), s.outcomes, s.terminalErr)
  {
    hide Inv, B.Core, LostOne;
    BarrierItem(s);
    forall i | 0 <= i < s.consumer.before ensures |s.outcomes[i]| == 1 && (s.appendErr.None? ==> s.outcomes[i][0].Acked?) {
      CoveredRecord(s, i);
    }
    if s.appendErr.Some? { var i := LostRecord(s); }
  }

  lemma AnswerReports(s: State, r: Report)
    requires ReportsExact(s.reports, s.outcomes, s.terminalErr) && ReportExact(r, s.outcomes, s.terminalErr)
    ensures ReportsExact(s.reports + [r], s.outcomes, s.terminalErr)
  {
    hide ReportExact;
  }

  lemma AnswerInv(s: State)
    requires Inv(s)
    ensures Inv(Answer(s))
  {
    hide FatesKnown, B.Inv, B.Core, ErrorsAgree, FateOf, Flying, RecordsAgree, ReportExact, ReportsExact, CapacityExact, Ticketed;
    if s.consumer.AtBarrier? && s.inflight == [] {
      AnswerExact(s);
      AnswerReports(s, Report(s.consumer.before, s.appendErr));
    }
  }

  lemma ExitInv(s: State)
    requires Inv(s) && s.consumer.Idle?
    ensures Inv(s.(consumer := Exited))
  {
    hide FatesKnown, B.Inv, ErrorsAgree, FateOf, Flying, Books;
    BarrierBooks(s, s.consumed, Exited);
  }

  // ---- every step ----

  lemma StepInv(s: State, a: Action)
    requires Inv(s)
    ensures Inv(Step(s, a))
  {
    hide Inv, Step;
    match a
    case Take => ConsumerStepInv(s, a);
    case SubmitSucceeds => ConsumerStepInv(s, a);
    case SubmitFails(_) => ConsumerStepInv(s, a);
    case FailBatch => ConsumerStepInv(s, a);
    case Acknowledge(_, _) => ConsumerStepInv(s, a);
    case AckFails(_, _) => ConsumerStepInv(s, a);
    case DispatchFailed(_) => ConsumerStepInv(s, a);
    case ReportBarrier => ConsumerStepInv(s, a);
    case Exit => ConsumerStepInv(s, a);
    case Cancel => FlagStepInv(s, a);
    case NoticeCancel(_) => FlagStepInv(s, a);
    case StartClosing => FlagStepInv(s, a);
    case _ => SubmitStepInv(s, a);
  }

  /** Submit and the batcher. */
  lemma SubmitStepInv(s: State, a: Action)
    requires Inv(s)
    requires a.Submit? || a.FlushForRoom? || a.GetRoom? || a.CheckAgain? || a.AddRecord? || a.GiveUp? || a.FlushBarrier? || a.FlushBatch? || a.TimerFires?
             || a.CloseBatcher? || a.CloseChannel? || a.CancelBatcher?
    ensures Inv(Step(s, a))
  {
    hide Inv, Start, FlushRoom, Room, Check, Add, Barrier, Flush, Timer, CloseB, B.Step;
    match a
    case Submit(record, contextDone) => StartInv(s, record, contextDone);
    case FlushForRoom(drop) => FlushRoomInv(s, drop);
    case GetRoom(contextDone) => RoomInv(s, contextDone);
    case CheckAgain => CheckInv(s);
    case AddRecord(d1, d2) => if s.submission.Cleared? { AddInv(s, d1, d2); }
    case GiveUp => if s.submission.NeedsFlush? || s.submission.Waiting? { GiveUpInv(s); }
    case FlushBarrier(drop, cancelled) => BarrierInv(s, drop, cancelled);
    case FlushBatch(drop) => FlushWholeInv(s, drop);
    case TimerFires(q, drop) => TimerInv(s, q, drop);
    case CloseBatcher(drop) => CloseInv(s, drop);
    case CloseChannel => FlagsInv(s, B.CloseChannel);
    case CancelBatcher => FlagsInv(s, B.CancelContext);
  }

  lemma ConsumerStepInv(s: State, a: Action)
    requires Inv(s)
    requires a.Take? || a.SubmitSucceeds? || a.SubmitFails? || a.FailBatch? || a.Acknowledge? || a.AckFails? || a.DispatchFailed? || a.ReportBarrier? || a.Exit?
    ensures Inv(Step(s, a))
  {
    hide Inv, TakeItem, Accepted, Rejected, FailNow, Ack, Nack, DispatchOne, Answer;
    match a
    case Take => TakeInv(s);
    case SubmitSucceeds => AcceptedInv(s);
    case SubmitFails(err) => RejectedInv(s, err);
    case FailBatch => FailNowInv(s);
    case Acknowledge(i, start) => AckInv(s, i, start);
    case AckFails(i, err) => NackInv(s, i, err);
    case DispatchFailed(i) => DispatchOneInv(s, i);
    case ReportBarrier => AnswerInv(s);
    case Exit => if s.consumer.Idle? { ExitInv(s); }
  }

  lemma FlagStepInv(s: State, a: Action)
    requires Inv(s) && (a.Cancel? || a.NoticeCancel? || a.StartClosing?)
    ensures Inv(Step(s, a))
  {
    hide Inv, Terminal;
    match a
    case Cancel => FlagInv(s, s.closing, true, s.cap.closed);
    case NoticeCancel(err) => TerminalInv(s, err);
    case StartClosing => FlagInv(s, true, s.cancelled, true);
  }

  lemma FlushWholeInv(s: State, drop: bool)
    requires Inv(s)
    ensures Inv(Flush(s, drop))
  {
    hide Core, B.Core, Flush;
    FlushInv(s, drop);
    B.FlushSettles(s.b, drop);
  }

  lemma InitInv(given: Option<B.BatchingOptions>, maxInflightBytes: nat)
    ensures Inv(Init(given, maxInflightBytes))
  {
    B.InitInv(given);
  }
}
