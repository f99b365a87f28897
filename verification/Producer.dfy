/** The producer object (s2/producer.go): Submit, Flush, Close, the consumer loop and the ack goroutines.
    Every method takes steps of the producer's state machine and keeps its invariant; a method that
    would block returns instead, saying where. */
module Producers {
  import opened Options
  import opened Errors
  import opened Records
  import opened Capacity
  import opened Producing
  import opened ProducerSteps
  import opened ProducerTheorems
  import opened Tickets
  import opened Batchers
  import B = Batching

  // ---- giving permits back in groups ----

  datatype Permit = Permit(tracker: nat, bytes: nat)

  datatype Ledger = Ledger(trackers: seq<Tracker>, permits: seq<Permit>)

  /** `producerPermit.release`: swap the bytes out and hand them to the permit's own tracker. */
  function ReleaseOne(l: Ledger, id: Option<nat>): Ledger {
    if id.None? || id.value >= |l.permits| || l.permits[id.value].tracker >= |l.trackers| || l.permits[id.value].bytes == 0 then l
    else
      var p := l.permits[id.value];
      Ledger(l.trackers[p.tracker := Release(l.trackers[p.tracker], p.bytes)], l.permits[id.value := Permit(p.tracker, 0)])
  }

  function OneByOne(l: Ledger, meta: seq<Option<nat>>): Ledger {
    if meta == [] then l else ReleaseOne(OneByOne(l, meta[..|meta| - 1]), meta[|meta| - 1])
  }

  predicate ByBytesOnly(trackers: seq<Tracker>) {
    forall i | 0 <= i < |trackers| :: trackers[i].maxItems == 0
  }

  predicate Known(meta: seq<Option<nat>>, permits: seq<Permit>, trackers: nat) {
    && (forall i | 0 <= i < |meta| && meta[i].Some? :: meta[i].value < |permits|)
    && (forall i | 0 <= i < |permits| :: permits[i].tracker < trackers)
  }

  /** Two releases on one tracker are one release of the sum, the clamp at zero included. */
  lemma ReleaseTwice(c: Tracker, a: nat, b: nat)
    requires c.maxItems == 0 && b > 0
    ensures Release(if a > 0 then Release(c, a) else c, b) == Release(c, a + b)
  {
  }

  function Pending(trackers: seq<Tracker>, group: Option<nat>, bytes: nat): seq<Tracker> {
    if group.Some? && group.value < |trackers| && bytes > 0 then trackers[group.value := Release(trackers[group.value], bytes)] else trackers
  }

  /** The next permit joins the group, or the group is given back and a new one begun. */
  lemma NextRelease(trackers: seq<Tracker>, permits: seq<Permit>, group: Option<nat>, bytes: nat, id: nat)
    requires ByBytesOnly(trackers) && id < |permits| && permits[id].tracker < |trackers| && permits[id].bytes > 0
    requires (group.Some? ==> group.value < |trackers|) && (group.None? ==> bytes == 0)
    ensures var p := permits[id];
            var same := group.None? || group.value == p.tracker;
            ReleaseOne(Ledger(Pending(trackers, group, bytes), permits), Some(id)) ==
            Ledger(if same then Pending(trackers, Some(p.tracker), bytes + p.bytes)
                   else Pending(Pending(trackers, group, bytes), Some(p.tracker), p.bytes),
                   permits[id := Permit(p.tracker, 0)])
  {
    var p := permits[id];
    ReleaseTwice(trackers[p.tracker], bytes, p.bytes);
    if group.None? || group.value == p.tracker {
      var t := Pending(trackers, group, bytes);
      assert t[p.tracker := Release(t[p.tracker], p.bytes)] == Pending(trackers, Some(p.tracker), bytes + p.bytes);
    }
  }

  lemma NoneKnown(trackers: seq<Tracker>, permits: seq<Permit>)
    ensures Pending(trackers, None, 0) == trackers
  {
  }

  lemma NothingToRelease(l: Ledger, id: Option<nat>)
    requires id.Some? ==> id.value < |l.permits| && l.permits[id.value].bytes == 0
    ensures ReleaseOne(l, id) == l
  {
  }

  method GiveBackGroup(trackers: array<Tracker>, group: Option<nat>, bytes: nat)
    requires ByBytesOnly(trackers[..]) && (group.Some? ==> group.value < trackers.Length)
    modifies trackers
    ensures trackers[..] == Pending(old(trackers[..]), group, bytes) && ByBytesOnly(trackers[..])
  {
    if group.Some? && bytes > 0 {
      ghost var was := trackers[..];
      trackers[group.value] := Release(trackers[group.value], bytes);
      assert trackers[..] == was[group.value := Release(was[group.value], bytes)];
    }
  }

  /** `releaseProducerPermits`: one release per run of records with the same tracker. */
  method ReleaseProducerPermits(trackers: array<Tracker>, permits: array<Permit>, meta: seq<Option<nat>>)
    requires Known(meta, permits[..], trackers.Length) && ByBytesOnly(trackers[..])
    modifies trackers, permits
    ensures Ledger(trackers[..], permits[..]) == OneByOne(old(Ledger(trackers[..], permits[..])), meta)
  {
    hide Release, Pending, ByBytesOnly, ReleaseOne;
    var group: Option<nat> := None;
    var bytes: nat := 0;
    ghost var start := Ledger(trackers[..], permits[..]);
    NoneKnown(trackers[..], permits[..]);
    for i := 0 to |meta|
      invariant Known(meta, permits[..], trackers.Length) && ByBytesOnly(trackers[..])
      invariant group.Some? ==> group.value < trackers.Length
      invariant group.None? ==> bytes == 0
      invariant OneByOne(start, meta[..i]) == Ledger(Pending(trackers[..], group, bytes), permits[..])
    {
      assert meta[..i + 1][..i] == meta[..i];
      if meta[i].None? {
        NothingToRelease(Ledger(Pending(trackers[..], group, bytes), permits[..]), meta[i]);
      } else {
        var id := meta[i].value;
        var p := permits[id];
        if p.bytes != 0 {
          NextRelease(trackers[..], permits[..], group, bytes, id);
          ghost var was := permits[..];
          permits[id] := Permit(p.tracker, 0);
          assert permits[..] == was[id := Permit(p.tracker, 0)];
          if group.Some? && group.value != p.tracker {
            GiveBackGroup(trackers, group, bytes);
            bytes := 0;
          }
          group := Some(p.tracker);
          bytes := bytes + p.bytes;
        } else {
          NothingToRelease(Ledger(Pending(trackers[..], group, bytes), permits[..]), meta[i]);
        }
      }
    }
    assert meta[..|meta|] == meta;
    GiveBackGroup(trackers, group, bytes);
  }

  // ---- the producer ----

  /** Waiting for room is where `Submit` may block. */
  datatype SubmitResult = Submitted(ticket: nat) | Refused(err: Err) | WaitsForRoom

  /** A flush whose barrier is ordered waits for its report. */
  datatype FlushResult = Ordered(before: nat) | FlushFails(err: Err)

  predicate BySubmit(a: Action) {
    a.Submit? || a.FlushForRoom? || a.GetRoom? || a.CheckAgain? || a.AddRecord? || a.NoticeCancel?
  }

  predicate ByConsumer(a: Action) {
    a.Take? || a.SubmitSucceeds? || a.SubmitFails? || a.FailBatch? || a.ReportBarrier? || a.Exit?
  }

  /** The producer's own fields, next to the batcher and the tickets. */
  datatype Own = Own(submission: Submission, consumed: nat, consumer: Consumer, inflight: seq<Flight>, terminalErr: Option<Err>,
                     appendErr: Option<Err>, closing: bool, cancelled: bool, reports: seq<Report>)

  function Compose(b: B.State, k: Book, o: Own): (s: State)
    ensures s.b == b && BookOf(s) == k && s.cap == k.cap && s.permits == k.permits && s.submission == o.submission
    ensures s.terminalErr == o.terminalErr && s.closing == o.closing && s.cancelled == o.cancelled
  {
    State(b, k.cap, k.permits, k.outcomes, o.submission, o.consumed, o.consumer, o.inflight, o.terminalErr, o.appendErr,
          o.closing, o.cancelled, k.fate, o.reports)
  }

  lemma Recompose(b: B.State, k: Book, o: Own, b': B.State, k': Book, submission: Submission)
    ensures WithBook(Compose(b, k, o).(b := b', submission := submission), k') == Compose(b', k', o.(submission := submission))
    ensures Compose(b, k, o).(submission := submission) == Compose(b, k, o.(submission := submission))
  {
  }

  lemma InitComposed(given: Option<B.BatchingOptions>, maxInflightBytes: nat)
    ensures Init(given, maxInflightBytes) == Compose(B.Init(given), Book(Tracker(maxInflightBytes, 0, 0, 0, false), [], [], map[]),
                                                     Own(Free, 0, Idle, [], None, None, false, false, []))
  {
  }

  class Producer {
    const batcher: Batcher
    var submission: Submission
    var consumed: nat
    var consumer: Consumer
    var inflight: seq<Flight>
    var terminalErr: Option<Err>
    var appendErr: Option<Err>
    var closing: bool
    var cancelled: bool
    var reports: seq<Report>

    ghost function Abs(): (s: State)
      reads this, batcher, batcher.book, batcher.book.capacity
      ensures s == Compose(batcher.Abs(), batcher.book.Abs(), Owned())
    {
      Compose(batcher.Abs(), batcher.book.Abs(), Owned())
    }

    ghost function Owned(): (o: Own)
      reads this
      ensures o == Own(submission, consumed, consumer, inflight, terminalErr, appendErr, closing, cancelled, reports)
    {
      Own(submission, consumed, consumer, inflight, terminalErr, appendErr, closing, cancelled, reports)
    }

    ghost predicate Valid()
      reads this, batcher, batcher.book, batcher.book.capacity
      ensures Valid() <==> Inv(Abs())
    {
      Inv(Abs())
    }

    constructor (given: Option<B.BatchingOptions>, maxInflightBytes: nat)
      ensures Valid() && Abs() == Init(given, maxInflightBytes)
      ensures fresh(batcher) && fresh(batcher.book) && fresh(batcher.book.capacity)
    {
      hide *;
      var book := new TicketBook(maxInflightBytes);
      batcher := new Batcher(given, book);
      submission, consumed, consumer, inflight := Free, 0, Idle, [];
      terminalErr, appendErr, closing, cancelled, reports := None, None, false, false, [];
      new;
      ProducerSteps.InitInv(given, maxInflightBytes);
      InitComposed(given, maxInflightBytes);
    }

    // ---- errors ----

    /** `recordTerminalError`: the first error stands and shuts the producer down; returns the one that
        stands. Closing the batcher is left to its own step. */
    method RecordTerminalError(err: Err) returns (standing: Err)
      requires Valid()
      modifies this`terminalErr, this`closing, this`cancelled, batcher.book.capacity
      ensures Valid() && Abs() == Terminal(old(Abs()), err)
      ensures Owned() == TerminalOwn(old(Owned()), err) && batcher.book.Abs() == TerminalBook(old(batcher.book.Abs()), old(Owned()))
      ensures (old(closing) ==> closing) && terminalErr == Some(standing) && standing == if old(terminalErr).Some? then old(terminalErr).value else err
    {
      hide *;
      TerminalInv(Abs(), err);
      TerminalComposed(batcher.Abs(), batcher.book.Abs(), Owned(), err);
      if terminalErr.None? {
        terminalErr, closing, cancelled := Some(err), true, true;
        batcher.book.capacity.Close();
      }
      return terminalErr.value;
    }

    /** `dispatchBatchError` */
    method DispatchBatchError(batch: Batch, err: Err)
      modifies this`appendErr, batcher.book, batcher.book.capacity
      ensures Abs() == Dispatch(old(Abs()), batch, err)
      ensures appendErr == (if old(appendErr).None? then Some(err) else old(appendErr))
      ensures batcher.book.Abs() == ResolveBook(old(batcher.book.Abs()), batch, Lost(err))
    {
      hide *;
      DispatchComposed(batcher.Abs(), batcher.book.Abs(), Owned(), batch, err);
      if appendErr.None? { appendErr := Some(err); }
      batcher.book.ResolveBatch(batch, Lost(err));
    }

    // ---- Submit ----

    /** The first look at the capacity, under the submit lock. */
    method TryFirst(record: AppendRecord, bytes: nat, contextDone: bool) returns (r: TryResult)
      requires Valid() && submission.Free? && bytes == RecordBytes(record)
      requires terminalErr.None? && !closing && !cancelled && bytes <= batcher.opts.maxMeteredBytes
      modifies this`submission, batcher.book.capacity
      ensures Valid() && Abs() == Step(old(Abs()), Submit(record, contextDone))
      ensures submission == match r case Reserved => HasRoom(record) case NoRoom => NeedsFlush(record) case _ => Free
    {
      hide *;
      ghost var b, k, o := batcher.Abs(), batcher.book.Abs(), Owned();
      StepInv(Abs(), Submit(record, contextDone));
      FirstTried(Abs(), record, contextDone);
      r := batcher.book.capacity.TryToReserve(bytes, contextDone);
      match r {
        case Reserved => submission := HasRoom(record);
        case NoRoom => submission := NeedsFlush(record);
        case _ =>
      }
      Recompose(b, k, o, b, batcher.book.Abs(), submission);
    }

    method FlushFirst(cancelledFirst: bool) returns (err: Option<Err>)
      requires Valid() && submission.NeedsFlush?
      modifies this`submission, batcher, batcher.book, batcher.book.capacity
      ensures Valid() && Abs() == Step(old(Abs()), FlushForRoom(cancelledFirst)) && batcher.accepted == old(batcher.accepted)
      ensures submission == if err.None? then Waiting(old(submission).record) else Free
    {
      hide *;
      ghost var b, k, o := batcher.Abs(), batcher.book.Abs(), Owned();
      StepInv(Abs(), FlushForRoom(cancelledFirst));
      RoomFlushed(Abs(), cancelledFirst);
      BatcherValid(Abs());
      err := batcher.FlushForBackpressure(cancelledFirst);
      submission := if err.None? then Waiting(submission.record) else Free;
      Recompose(b, k, o, batcher.Abs(), batcher.book.Abs(), submission);
    }

    /** One try of `capacity.reserve`. */
    method TryAgain(contextDone: bool) returns (r: TryResult)
      requires Valid() && submission.Waiting?
      modifies this`submission, batcher.book.capacity
      ensures Valid() && Abs() == Step(old(Abs()), GetRoom(contextDone))
      ensures submission == match r case Reserved => HasRoom(old(submission).record) case NoRoom => old(submission) case _ => Free
    {
      hide *;
      ghost var b, k, o := batcher.Abs(), batcher.book.Abs(), Owned();
      var record := submission.record;
      StepInv(Abs(), GetRoom(contextDone));
      RoomTried(Abs(), contextDone);
      var bytes := MeterRecord(record.headers, record.body);
      MeteredIs(record);
      r := batcher.book.capacity.TryToReserve(bytes, contextDone);
      match r {
        case Reserved => submission := HasRoom(record);
        case NoRoom =>
        case _ => submission := Free;
      }
      Recompose(b, k, o, b, batcher.book.Abs(), submission);
    }

    /** With room reserved: check once more, then hand the record to the batcher, or give the room back. */
    method CheckOnce() returns (ok: bool)
      requires Valid() && submission.HasRoom?
      modifies this`submission, batcher.book.capacity
      ensures Valid() && Abs() == Step(old(Abs()), CheckAgain)
      ensures ok <==> terminalErr.None? && !closing && !cancelled
      ensures submission == if ok then Cleared(old(submission).record) else Free
    {
      hide Inv, Batcher.Abs, TicketBook.Abs, RecordBytes, Release;
      StepInv(Abs(), CheckAgain);
      var record := submission.record;
      ok := terminalErr.None? && !closing && !cancelled;
      if ok {
        submission := Cleared(record);
      } else {
        submission := Free;
        ReturnRoom(record);
      }
    }

    method AddCleared(cancelledBefore: bool, cancelledAfter: bool) returns (err: Option<Err>)
      requires Valid() && submission.Cleared?
      modifies this`submission, batcher, batcher.book, batcher.book.capacity
      ensures Valid() && Abs() == Step(old(Abs()), AddRecord(cancelledBefore, cancelledAfter)) && submission.Free?
      ensures batcher.accepted == if err.None? then old(batcher.accepted) + [old(submission).record] else old(batcher.accepted)
    {
      hide *;
      ghost var b, k, o := batcher.Abs(), batcher.book.Abs(), Owned();
      var record := submission.record;
      StepInv(Abs(), AddRecord(cancelledBefore, cancelledAfter));
      BatcherValid(Abs());
      AddedOrNot(Abs(), cancelledBefore, cancelledAfter);
      err := batcher.AddWithPermit(record, true, cancelledBefore, cancelledAfter);
      submission := Free;
      if err.Some? { ReturnRoom(record); }
      Recompose(b, k, o, batcher.Abs(), batcher.book.Abs(), Free);
    }

    method ReturnRoom(record: AppendRecord)
      modifies batcher.book.capacity
      ensures batcher.book.Abs() == BookRelease(old(batcher.book.Abs()), RecordBytes(record))
    {
      hide RecordBytes, Release;
      var bytes := MeterRecord(record.headers, record.body);
      MeteredIs(record);
      batcher.book.capacity.GiveBack(bytes);
    }

    /** `mapSubmitError`: a standing terminal error first, then closing, then a cancellation. */
    method MapSubmitError(err: Err, ghost start: State, ghost done: seq<Action>) returns (mapped: Err, ghost now: seq<Action>)
      requires Valid() && Abs() == Run(start, done) && forall a | a in done :: BySubmit(a)
      modifies this`terminalErr, this`closing, this`cancelled, batcher.book.capacity
      ensures Valid() && Abs() == Run(start, now) && forall a | a in now :: BySubmit(a)
      ensures old(terminalErr).Some? ==> mapped == old(terminalErr).value
    {
      hide *;
      now := done;
      if terminalErr.Some? { return terminalErr.value, now; }
      if closing { return SessionClosed, now; }
      if cancelled || batcher.done {
        now := RunMore(start, done, NoticeCancel(Cancelled));
        NoticedIs(Abs(), Cancelled);
        mapped := RecordTerminalError(Cancelled);
        return;
      }
      return err, now;
    }

    /** A terminal error explains why the batcher was closed. */
    method TerminalOr(err: Err) returns (e: Err)
      ensures e == if err == SessionClosed && terminalErr.Some? then terminalErr.value else err
    {
      e := err;
      if err == SessionClosed && terminalErr.Some? { e := terminalErr.value; }
    }

    /** Once room is reserved. */
    method FinishSubmit(cancelledBefore: bool, cancelledAfter: bool, ghost start: State, ghost done: seq<Action>)
      returns (r: SubmitResult, ghost now: seq<Action>)
      requires Valid() && submission.HasRoom? && Abs() == Run(start, done) && forall a | a in done :: BySubmit(a)
      modifies this, batcher, batcher.book, batcher.book.capacity
      ensures Valid() && submission.Free? && Abs() == Run(start, now) && forall a | a in now :: BySubmit(a)
      ensures r.Submitted? ==> r.ticket == |old(batcher.accepted)| && batcher.accepted == old(batcher.accepted) + [old(submission).record]
      ensures r.Refused? ==> batcher.accepted == old(batcher.accepted)
      ensures !r.WaitsForRoom?
    {
      hide *;
      now := done;
      var ok := CheckOnce();
      now := RunMore(start, now, CheckAgain);
      if !ok {
        var err;
        err, now := MapSubmitError(SessionClosed, start, now);
        return Refused(err), now;
      }
      var ticket := |batcher.accepted|;
      var err := AddCleared(cancelledBefore, cancelledAfter);
      now := RunMore(start, now, AddRecord(cancelledBefore, cancelledAfter));
      if err.None? { return Submitted(ticket), now; }
      var e := TerminalOr(err.value);
      return Refused(e), now;
    }

    /** `Submit`, up to its end or to where it waits for room. `seen` says whether a look at the
        capacity finds the submit context ended, and the other flags how the batcher's selects go. */
    method SubmitRecord(record: AppendRecord, seen: bool, cancelledFlush: bool, seenLater: bool, cancelledBefore: bool, cancelledAfter: bool)
      returns (r: SubmitResult, ghost done: seq<Action>)
      requires Valid() && submission.Free?
      modifies this, batcher, batcher.book, batcher.book.capacity
      ensures Valid() && Abs() == Run(old(Abs()), done) && forall a | a in done :: BySubmit(a)
      ensures r.Submitted? ==> r.ticket == |old(batcher.accepted)| && batcher.accepted == old(batcher.accepted) + [record] && submission.Free?
      ensures r.Refused? ==> batcher.accepted == old(batcher.accepted) && submission.Free?
      ensures r.WaitsForRoom? ==> batcher.accepted == old(batcher.accepted) && submission == Waiting(record)
      ensures old(terminalErr).Some? ==> r == Refused(old(terminalErr).value)
    {
      hide *;
      ghost var start := Abs();
      done := [];
      RunNone(start);
      if terminalErr.Some? { return Refused(terminalErr.value), done; }
      if closing { return Refused(SessionClosed), done; }
      if cancelled {
        var err;
        err, done := MapSubmitError(Cancelled, start, done);
        return Refused(err), done;
      }
      var bytes := MeterRecord(record.headers, record.body);
      MeteredIs(record);
      if bytes > batcher.opts.maxMeteredBytes { return Refused(TOO_LARGE), done; }
      var t := TryFirst(record, bytes, seen);
      done := RunMore(start, done, Submit(record, seen));
      if t == NoRoom {
        var err := FlushFirst(cancelledFlush);
        done := RunMore(start, done, FlushForRoom(cancelledFlush));
        if err.Some? {
          var mapped;
          mapped, done := MapSubmitError(err.value, start, done);
          return Refused(mapped), done;
        }
        r, done := ResumeSubmit(seenLater, cancelledBefore, cancelledAfter, start, done);
        return;
      }
      if t != Reserved {
        var mapped;
        mapped, done := MapSubmitError(if t == Closed then SessionClosed else Cancelled, start, done);
        return Refused(mapped), done;
      }
      r, done := FinishSubmit(cancelledBefore, cancelledAfter, start, done);
    }

    /** A waiting `Submit` looks at the capacity again. */
    method ResumeSubmit(seen: bool, cancelledBefore: bool, cancelledAfter: bool, ghost start: State, ghost done: seq<Action>)
      returns (r: SubmitResult, ghost now: seq<Action>)
      requires Valid() && submission.Waiting? && Abs() == Run(start, done) && forall a | a in done :: BySubmit(a)
      modifies this, batcher, batcher.book, batcher.book.capacity
      ensures Valid() && Abs() == Run(start, now) && forall a | a in now :: BySubmit(a)
      ensures r.Submitted? ==> r.ticket == |old(batcher.accepted)| && submission.Free?
                               && batcher.accepted == old(batcher.accepted) + [old(submission).record]
      ensures r.Refused? ==> batcher.accepted == old(batcher.accepted) && submission.Free?
      ensures r.WaitsForRoom? ==> batcher.accepted == old(batcher.accepted) && submission == old(submission)
    {
      hide *;
      now := done;
      var t := TryAgain(seen);
      now := RunMore(start, now, GetRoom(seen));
      if t == NoRoom { return WaitsForRoom, now; }
      if t != Reserved {
        var mapped;
        mapped, now := MapSubmitError(if t == Closed then SessionClosed else Cancelled, start, now);
        return Refused(mapped), now;
      }
      r, now := FinishSubmit(cancelledBefore, cancelledAfter, start, now);
    }

    // ---- Flush and Close ----

    /** `Flush`, up to where it waits for its barrier's report. */
    method OrderFlush(cancelledFirst: bool, cancelledAfter: bool) returns (r: FlushResult, ghost done: seq<Action>)
      requires Valid()
      modifies this, batcher, batcher.book, batcher.book.capacity
      ensures Valid() && Abs() == Run(old(Abs()), done) && forall a | a in done :: a.FlushBarrier? || a.NoticeCancel?
      ensures batcher.accepted == old(batcher.accepted)
      ensures r.Ordered? ==> r.before == |batcher.accepted| && batcher.sent != [] && batcher.sent[|batcher.sent| - 1] == B.Barrier(r.before)
      ensures old(terminalErr).Some? ==> r == FlushFails(old(terminalErr).value)
      ensures r.FlushFails? && terminalErr.Some? ==> r.err == terminalErr.value || r.err == SessionClosed
    {
      hide *;
      ghost var start := Abs();
      done := [];
      RunNone(start);
      if terminalErr.Some? { return FlushFails(terminalErr.value), done; }
      if closing { return FlushFails(SessionClosed), done; }
      if cancelled {
        done := RunMore(start, done, NoticeCancel(Cancelled));
        NoticedIs(Abs(), Cancelled);
        var standing := RecordTerminalError(Cancelled);
        return FlushFails(standing), done;
      }
      var err := SendBarrier(cancelledFirst, cancelledAfter);
      done := RunMore(start, done, FlushBarrier(cancelledFirst, cancelledAfter));
      if err.None? { return Ordered(|batcher.accepted|), done; }
      if err == Some(SessionClosed) {
        var e := TerminalOr(SessionClosed);
        return FlushFails(e), done;
      }
      done := RunMore(start, done, NoticeCancel(Cancelled));
      NoticedIs(Abs(), Cancelled);
      var standing := RecordTerminalError(Cancelled);
      return FlushFails(standing), done;
    }

    method SendBarrier(cancelledFirst: bool, cancelledAfter: bool) returns (err: Option<Err>)
      requires Valid()
      modifies batcher, batcher.book, batcher.book.capacity
      ensures Valid() && Abs() == Step(old(Abs()), FlushBarrier(cancelledFirst, cancelledAfter))
      ensures batcher.accepted == old(batcher.accepted)
      ensures err.None? ==> batcher.sent != [] && batcher.sent[|batcher.sent| - 1] == B.Barrier(|batcher.accepted|)
      ensures err.Some? ==> err == Some(SessionClosed) || (err == Some(Cancelled) && batcher.done)
    {
      hide *;
      ghost var b, k, o := batcher.Abs(), batcher.book.Abs(), Owned();
      StepInv(Abs(), FlushBarrier(cancelledFirst, cancelledAfter));
      BarrierSplits(Abs(), cancelledFirst, cancelledAfter);
      BatcherValid(Abs());
      err := batcher.FlushBarrier(cancelledFirst, cancelledAfter);
      Recompose(b, k, o, batcher.Abs(), batcher.book.Abs(), submission);
    }

    /** `Close`, up to where it waits for the consumer. */
    method BeginClose(cancelledFirst: bool) returns (ghost done: seq<Action>)
      requires Valid()
      modifies this, batcher, batcher.book, batcher.book.capacity
      ensures Valid() && Abs() == Run(old(Abs()), done)
      ensures forall a | a in done :: a.StartClosing? || a.CloseBatcher? || a.CloseChannel? || a.NoticeCancel?
      ensures closing && batcher.closed
    {
      hide *;
      ghost var start := Abs();
      done := [];
      RunNone(start);
      StopSubmits();
      done := RunMore(start, done, StartClosing);
      var err := ShutBatcher(cancelledFirst);
      if err.0 {
        done := RunMore(start, done, CloseBatcher(cancelledFirst));
        done := RunMore(start, done, CloseChannel);
      }
      if err.1.Some? {
        done := RunMore(start, done, NoticeCancel(err.1.value));
        NoticedIs(Abs(), err.1.value);
        var _ := RecordTerminalError(err.1.value);
      }
    }

    method StopSubmits()
      requires Valid()
      modifies this`closing, batcher.book.capacity
      ensures Valid() && Abs() == Step(old(Abs()), StartClosing) && closing
    {
      hide *;
      StepInv(Abs(), StartClosing);
      ClosingComposed(batcher.Abs(), batcher.book.Abs(), Owned());
      closing := true;
      batcher.book.capacity.Close();
    }

    /** Whether the batcher was still open, and the error it kept. */
    method ShutBatcher(cancelledFirst: bool) returns (r: (bool, Option<Err>))
      requires Valid()
      modifies batcher, batcher.book, batcher.book.capacity
      ensures Valid() && batcher.closed && r.0 == !old(batcher.closed)
      ensures Abs() == if r.0 then Step(Step(old(Abs()), CloseBatcher(cancelledFirst)), CloseChannel) else old(Abs())
      ensures r.1.Some? ==> batcher.done
    {
      hide *;
      ghost var b, k, o := batcher.Abs(), batcher.book.Abs(), Owned();
      r := (!batcher.closed, None);
      StepInv(Abs(), CloseBatcher(cancelledFirst));
      StepInv(Step(Abs(), CloseBatcher(cancelledFirst)), CloseChannel);
      CloseSplits(Abs(), cancelledFirst);
      BatcherValid(Abs());
      var err := batcher.CloseBatcher(cancelledFirst);
      r := (r.0, err);
      Recompose(b, k, o, batcher.Abs(), batcher.book.Abs(), submission);
      BatcherValid(Abs());
      DropsKnown(batcher.Abs());
    }

    // ---- the consumer ----

    method ReceiveItem(item: B.Item)
      requires Valid() && consumer.Idle? && consumed < |batcher.sent| && item == batcher.sent[consumed]
      modifies this`consumed, this`consumer, this`appendErr, batcher.book, batcher.book.capacity
      ensures Valid() && Abs() == Step(old(Abs()), Take) && consumed == old(consumed) + 1
    {
      hide *;
      ghost var b, k, o := batcher.Abs(), batcher.book.Abs(), Owned();
      StepInv(Abs(), Take);
      consumed := consumed + 1;
      if item.Barrier? {
        BarrierTaken(b, k, o);
        consumer := AtBarrier(item.before);
      } else if terminalErr.Some? {
        BatchLost(b, k, o);
        DispatchBatchError(item.batch, terminalErr.value);
      } else {
        BatchTaken(b, k, o);
        consumer := Submitting(item.batch);
        batcher.book.Assign(item.batch, AtConsumer);
      }
    }

    /** The session took the batch, or refused it. */
    method SubmissionReturned(err: Option<Err>)
      requires Valid() && consumer.Submitting?
      modifies this`consumer, this`inflight, this`terminalErr, this`closing, this`cancelled, batcher.book, batcher.book.capacity
      ensures Valid() && Abs() == Step(old(Abs()), if err.None? then SubmitSucceeds else SubmitFails(err.value))
      ensures (consumer.Idle? || consumer.Failing?) && consumed == old(consumed)
    {
      hide *;
      ghost var b, k, o := batcher.Abs(), batcher.book.Abs(), Owned();
      if err.None? {
        StepInv(Abs(), SubmitSucceeds);
        SubmissionTaken(b, k, o);
        inflight := inflight + [Flight(consumer.batch, None)];
        batcher.book.Assign(consumer.batch, InFlight);
        consumer := Idle;
      } else {
        StepInv(Abs(), SubmitFails(err.value));
        SubmissionRefused(b, k, o, err.value);
        var standing := RecordTerminalError(err.value);
        consumer := Failing(consumer.batch, standing);
      }
    }

    /** The rest of `resolveSynchronousBatchError`, once no ack is in flight. */
    method FailHeldBatch()
      requires Valid() && consumer.Failing? && inflight == []
      modifies this, batcher.book, batcher.book.capacity
      ensures Valid() && Abs() == Step(old(Abs()), FailBatch) && consumer.Idle? && consumed == old(consumed)
    {
      hide *;
      StepInv(Abs(), FailBatch);
      FailComposed(batcher.Abs(), batcher.book.Abs(), Owned());
      var batch, err := consumer.batch, consumer.err;
      consumer := Idle;
      DispatchBatchError(batch, err);
    }

    /** A barrier waits for the acks in flight and reports the append error. */
    method AnswerBarrier()
      requires Valid() && consumer.AtBarrier? && inflight == []
      modifies this
      ensures Valid() && Abs() == Step(old(Abs()), ReportBarrier) && consumer.Idle? && consumed == old(consumed)
      ensures reports == old(reports) + [Report(old(consumer).before, appendErr)]
    {
      hide *;
      StepInv(Abs(), ReportBarrier);
      AnswerComposed(batcher.Abs(), batcher.book.Abs(), Owned());
      reports := reports + [Report(consumer.before, appendErr)];
      consumer := Idle;
    }

    method ExitLoop()
      requires Valid() && consumer.Idle? && batcher.channelClosed && consumed >= |batcher.sent| && inflight == []
      modifies this
      ensures Valid() && Abs() == Step(old(Abs()), Exit) && consumer.Exited?
    {
      hide *;
      StepInv(Abs(), Exit);
      ExitComposed(batcher.Abs(), batcher.book.Abs(), Owned());
      consumer := Exited;
    }

    /** `consumeBatches` with `processBatch`: everything in the channel, until the loop waits or exits.
        `answers` are the session's answers to the submissions, in order. */
    method ConsumeBatches(answers: seq<Option<Err>>) returns (used: nat, ghost done: seq<Action>)
      requires Valid()
      modifies this, batcher.book, batcher.book.capacity
      ensures Valid() && Abs() == Run(old(Abs()), done) && forall a | a in done :: ByConsumer(a)
      ensures used <= |answers|
      ensures match consumer      // where it waits: for an item, for the session's answer, for acks
              case Idle => consumed >= |batcher.sent| && (!batcher.channelClosed || inflight != [])
              case Submitting(_) => used == |answers|
              case Failing(_, _) => inflight != []
              case AtBarrier(_) => inflight != []
              case Exited => true
    {
      hide *;
      ghost var start := Abs();
      used, done := 0, [];
      RunNone(start);
      while true
        invariant Valid() && Abs() == Run(start, done) && used <= |answers|
        invariant forall a | a in done :: ByConsumer(a)
        decreases |batcher.sent| - consumed, match consumer case Submitting(_) => 2 case Failing(_, _) => 1 case AtBarrier(_) => 1 case _ => 0
      {
        match consumer {
          case Idle =>
            if consumed < |batcher.sent| {
              ReceiveItem(batcher.sent[consumed]);
              done := RunMore(start, done, Take);
            } else {
              if batcher.channelClosed && inflight == [] {
                ExitLoop();
                done := RunMore(start, done, Exit);
              }
              break;
            }
          case Submitting(_) =>
            if used == |answers| { break; }
            var answer := answers[used];
            used := used + 1;
            SubmissionReturned(answer);
            done := RunMore(start, done, if answer.None? then SubmitSucceeds else SubmitFails(answer.value));
          case Failing(_, _) =>
            if inflight != [] { break; }
            FailHeldBatch();
            done := RunMore(start, done, FailBatch);
          case AtBarrier(_) =>
            if inflight != [] { break; }
            AnswerBarrier();
            done := RunMore(start, done, ReportBarrier);
          case Exited => break;
        }
      }
    }

    // ---- the goroutines waiting for acks ----

    method AckArrived(i: nat, first: nat)
      requires Valid() && i < |inflight| && inflight[i].failed.None?
      modifies this, batcher.book, batcher.book.capacity
      ensures Valid() && Abs() == Step(old(Abs()), Acknowledge(i, first))
    {
      hide *;
      StepInv(Abs(), Acknowledge(i, first));
      AckComposed(batcher.Abs(), batcher.book.Abs(), Owned(), i, first);
      var batch := inflight[i].batch;
      inflight := inflight[..i] + inflight[i + 1..];
      batcher.book.ResolveBatch(batch, Landed(first));
    }

    /** The error becomes terminal, or gives way to the one that stands. */
    method AckFailed(i: nat, err: Err)
      requires Valid() && i < |inflight| && inflight[i].failed.None?
      modifies this`inflight, this`terminalErr, this`closing, this`cancelled, batcher.book.capacity
      ensures Valid() && Abs() == Step(old(Abs()), AckFails(i, err))
      ensures |inflight| == |old(inflight)| && inflight[i] == Flight(old(inflight)[i].batch, terminalErr) && terminalErr.Some?
    {
      hide *;
      StepInv(Abs(), AckFails(i, err));
      NackNoted(batcher.Abs(), batcher.book.Abs(), Owned(), i, err);
      var standing := RecordTerminalError(err);
      inflight := inflight[i := Flight(inflight[i].batch, Some(standing))];
    }

    /** The batch then fails with the error noted. */
    method DispatchFailedAck(i: nat)
      requires Valid() && i < |inflight| && inflight[i].failed.Some?
      modifies this`inflight, this`appendErr, batcher.book, batcher.book.capacity
      ensures Valid() && Abs() == Step(old(Abs()), DispatchFailed(i))
    {
      hide *;
      StepInv(Abs(), DispatchFailed(i));
      FailureDispatched(batcher.Abs(), batcher.book.Abs(), Owned(), i);
      WithoutIs(inflight, i);
      var f := inflight[i];
      inflight := inflight[..i] + inflight[i + 1..];
      DispatchBatchError(f.batch, f.failed.value);
    }
  }

  lemma WithoutIs(fs: seq<Flight>, i: nat)
    requires i < |fs|
    ensures Without(fs, i) == fs[..i] + fs[i + 1..]
  {
  }

  // ---- the steps, on batcher, tickets and own fields ----

  lemma TerminalComposed(b: B.State, k: Book, o: Own, err: Err)
    ensures Terminal(Compose(b, k, o), err) == Compose(b, TerminalBook(k, o), TerminalOwn(o, err))
    ensures TerminalBook(k, o) == if o.terminalErr.Some? then k else k.(cap := k.cap.(closed := true))
    ensures TerminalOwn(o, err) == if o.terminalErr.Some? then o else o.(terminalErr := Some(err), closing := true, cancelled := true)
  {
  }

  lemma DispatchComposed(b: B.State, k: Book, o: Own, batch: Batch, err: Err)
    ensures Dispatch(Compose(b, k, o), batch, err) ==
            Compose(b, ResolveBook(k, batch, Lost(err)), o.(appendErr := if o.appendErr.None? then Some(err) else o.appendErr))
  {
    hide Resolve, ResolveBook;
    ResolveSplits(Compose(b, k, o.(appendErr := if o.appendErr.None? then Some(err) else o.appendErr)), batch, Lost(err));
  }

  lemma ClosingComposed(b: B.State, k: Book, o: Own)
    ensures Step(Compose(b, k, o), StartClosing) == Compose(b, k.(cap := k.cap.(closed := true)), o.(closing := true))
  {
  }

  lemma BarrierTaken(b: B.State, k: Book, o: Own)
    requires o.consumer.Idle? && o.consumed < |b.sent| && b.sent[o.consumed].Barrier?
    ensures Step(Compose(b, k, o), Take) == Compose(b, k, o.(consumed := o.consumed + 1, consumer := AtBarrier(b.sent[o.consumed].before)))
  {
  }

  lemma BatchTaken(b: B.State, k: Book, o: Own)
    requires o.consumer.Idle? && o.consumed < |b.sent| && b.sent[o.consumed].Records? && o.terminalErr.None?
    ensures var batch := b.sent[o.consumed].batch;
            Step(Compose(b, k, o), Take) ==
            Compose(b, k.(fate := k.fate[batch.first := AtConsumer]), o.(consumed := o.consumed + 1, consumer := Submitting(batch)))
  {
  }

  lemma BatchLost(b: B.State, k: Book, o: Own)
    requires o.consumer.Idle? && o.consumed < |b.sent| && b.sent[o.consumed].Records? && o.terminalErr.Some?
    ensures var e := o.terminalErr.value;
            Step(Compose(b, k, o), Take) ==
            Compose(b, ResolveBook(k, b.sent[o.consumed].batch, Lost(e)),
                    o.(consumed := o.consumed + 1, appendErr := if o.appendErr.None? then Some(e) else o.appendErr))
  {
    hide Dispatch, ResolveBook;
    DispatchComposed(b, k, o.(consumed := o.consumed + 1), b.sent[o.consumed].batch, o.terminalErr.value);
  }

  lemma SubmissionTaken(b: B.State, k: Book, o: Own)
    requires o.consumer.Submitting?
    ensures Step(Compose(b, k, o), SubmitSucceeds) ==
            Compose(b, k.(fate := k.fate[o.consumer.batch.first := InFlight]),
                    o.(consumer := Idle, inflight := o.inflight + [Flight(o.consumer.batch, None)]))
  {
  }

  lemma SubmissionRefused(b: B.State, k: Book, o: Own, err: Err)
    requires o.consumer.Submitting?
    ensures var e := if o.terminalErr.Some? then o.terminalErr.value else err;
            Step(Compose(b, k, o), SubmitFails(err)) ==
            Compose(b, TerminalBook(k, o), TerminalOwn(o, err).(consumer := Failing(o.consumer.batch, e)))
  {
  }

  /** What a terminal error does to the tracker and to the producer's own fields. */
  function TerminalBook(k: Book, o: Own): Book {
    if o.terminalErr.Some? then k else k.(cap := k.cap.(closed := true))
  }

  function TerminalOwn(o: Own, err: Err): Own {
    if o.terminalErr.Some? then o else o.(terminalErr := Some(err), closing := true, cancelled := true)
  }

  lemma FailComposed(b: B.State, k: Book, o: Own)
    requires o.consumer.Failing? && o.inflight == []
    ensures Step(Compose(b, k, o), FailBatch) ==
            Compose(b, ResolveBook(k, o.consumer.batch, Lost(o.consumer.err)),
                    o.(consumer := Idle, appendErr := if o.appendErr.None? then Some(o.consumer.err) else o.appendErr))
  {
    hide Dispatch, ResolveBook;
    DispatchComposed(b, k, o.(consumer := Idle), o.consumer.batch, o.consumer.err);
  }

  lemma AnswerComposed(b: B.State, k: Book, o: Own)
    requires o.consumer.AtBarrier? && o.inflight == []
    ensures Step(Compose(b, k, o), ReportBarrier) ==
            Compose(b, k, o.(consumer := Idle, reports := o.reports + [Report(o.consumer.before, o.appendErr)]))
  {
  }

  lemma ExitComposed(b: B.State, k: Book, o: Own)
    requires o.consumer.Idle? && b.channelClosed && o.consumed >= |b.sent| && o.inflight == []
    ensures Step(Compose(b, k, o), Exit) == Compose(b, k, o.(consumer := Exited))
  {
  }

  lemma AckComposed(b: B.State, k: Book, o: Own, i: nat, first: nat)
    requires i < |o.inflight| && o.inflight[i].failed.None?
    ensures Step(Compose(b, k, o), Acknowledge(i, first)) ==
            Compose(b, ResolveBook(k, o.inflight[i].batch, Landed(first)), o.(inflight := o.inflight[..i] + o.inflight[i + 1..]))
  {
    hide Resolve, ResolveBook;
    ResolveSplits(Compose(b, k, o.(inflight := o.inflight[..i] + o.inflight[i + 1..])), o.inflight[i].batch, Landed(first));
  }

  /** The first half of a failed ack: the error that stands is noted with the batch. */
  lemma NackNoted(b: B.State, k: Book, o: Own, i: nat, err: Err)
    requires i < |o.inflight| && o.inflight[i].failed.None?
    ensures var e := if o.terminalErr.Some? then o.terminalErr.value else err;
            Step(Compose(b, k, o), AckFails(i, err)) ==
            Compose(b, TerminalBook(k, o), TerminalOwn(o, err).(inflight := o.inflight[i := Flight(o.inflight[i].batch, Some(e))]))
  {
  }

  lemma FailureDispatched(b: B.State, k: Book, o: Own, i: nat)
    requires i < |o.inflight| && o.inflight[i].failed.Some?
    ensures var e := o.inflight[i].failed.value;
            Step(Compose(b, k, o), DispatchFailed(i)) ==
            Compose(b, ResolveBook(k, o.inflight[i].batch, Lost(e)),
                    o.(inflight := Without(o.inflight, i), appendErr := if o.appendErr.None? then Some(e) else o.appendErr))
  {
    hide Dispatch, ResolveBook;
    DispatchComposed(b, k, o.(inflight := Without(o.inflight, i)), o.inflight[i].batch, o.inflight[i].failed.value);
  }

  lemma BatcherValid(s: State)
    requires Inv(s)
    ensures B.Inv(s.b)
  {
  }

  lemma TicketsMatch(s: State)
    requires Inv(s)
    ensures |s.permits| == |s.b.accepted|
  {
    hide Places, FatesKnown, ReportsExact, CapacityExact, B.Inv, B.Core;
  }

  lemma FirstTried(s: State, record: AppendRecord, contextDone: bool)
    requires s.submission.Free? && s.terminalErr.None? && !s.closing && !s.cancelled && RecordBytes(record) <= s.b.opts.maxMeteredBytes
    ensures var (r, c) := TryReserve(s.cap, RecordBytes(record), contextDone);
            Step(s, Submit(record, contextDone)) ==
            WithBook(s.(b := s.b, submission := match r case Reserved => HasRoom(record) case NoRoom => NeedsFlush(record) case _ => Free),
                     BookOf(s).(cap := c))
  {
    hide RecordBytes;
  }

  lemma RoomTried(s: State, contextDone: bool)
    requires s.submission.Waiting?
    ensures var record := s.submission.record;
            var (r, c) := TryReserve(s.cap, RecordBytes(record), contextDone);
            Step(s, GetRoom(contextDone)) ==
            WithBook(s.(b := s.b, submission := match r case Reserved => HasRoom(record) case NoRoom => s.submission case _ => Free),
                     BookOf(s).(cap := c))
  {
    hide RecordBytes;
  }

  function BookRelease(k: Book, bytes: nat): Book { k.(cap := Release(k.cap, bytes)) }

  lemma RoomFlushed(s: State, drop: bool)
    requires s.submission.NeedsFlush?
    ensures Step(s, FlushForRoom(drop)) ==
            if s.b.closed then s.(submission := Free)
            else WithBook(s.(b := B.DoFlush(s.b, drop), submission := if drop && s.b.buffer != [] then Free else Waiting(s.submission.record)),
                          BookFlush(s.b, BookOf(s), drop))
  {
    hide Flush, B.DoFlush, BookFlush;
    FlushSplits(s, drop);
  }

  lemma AddGrows(b: B.State, record: AppendRecord, ticket: Option<nat>, d1: bool, d2: bool)
    ensures B.DoAdd(b, record, ticket, d1, d2).accepted == if B.Accepts(b, record) then b.accepted + [record] else b.accepted
  {
    hide B.DoFlush, RecordBytes;
    FlushAccepts(b, d1);
    var b1 := if B.Fits(b, RecordBytes(record)) then b else B.DoFlush(b, d1);
    FlushAccepts(B.Put(b1, record, ticket), d2);
  }

  /** The record is added as the batcher adds it, or its room is given back. */
  lemma AddedOrNot(s: State, d1: bool, d2: bool)
    requires Inv(s) && s.submission.Cleared?
    ensures var record := s.submission.record;
            var b := B.DoAdd(s.b, record, Some(|s.permits|), d1, d2);
            var k := BookAdd(s.b, BookOf(s), record, true, d1, d2);
            var added := !s.b.closed && RecordBytes(record) <= s.b.opts.maxMeteredBytes;
            && Step(s, AddRecord(d1, d2)) ==
                 WithBook(s.(b := b, submission := Free), if added then k else BookRelease(k, RecordBytes(record)))
            && b.accepted == if added then s.b.accepted + [record] else s.b.accepted
  {
    hide Inv, Flush, B.DoFlush, BookFlush, RecordBytes, Release, B.Put, BookPut, B.ArmTimer, B.Full, B.Fits;
    var record := s.submission.record;
    TicketsMatch(s);
    AddGrows(s.b, record, Some(|s.permits|), d1, d2);
    if B.Accepts(s.b, record) {
      AddSplits(s, record, d1, d2);
    } else {
      AddRefused(s.b, BookOf(s), record, true, d1, d2);
    }
  }

  lemma BarrierSplits(s: State, drop: bool, cancelled: bool)
    ensures Step(s, FlushBarrier(drop, cancelled)) ==
            WithBook(s.(b := B.DoBarrier(s.b, drop, cancelled), submission := s.submission),
                     if s.b.closed then BookOf(s) else BookFlush(s.b, BookOf(s), drop))
  {
    hide Flush, B.DoFlush, BookFlush;
    FlushSplits(s, drop);
  }

  lemma NoticedIs(s: State, err: Err)
    requires s.cancelled || s.b.done
    ensures Step(s, NoticeCancel(err)) == Terminal(s, err)
  {
  }

  lemma RunNone(s: State)
    ensures Run(s, []) == s
  {
  }

  lemma RunMore(s: State, done: seq<Action>, a: Action) returns (more: seq<Action>)
    ensures more == done + [a] && Run(s, more) == Step(Run(s, done), a)
    ensures BySubmit(a) && (forall x | x in done :: BySubmit(x)) ==> forall x | x in more :: BySubmit(x)
    ensures ByConsumer(a) && (forall x | x in done :: ByConsumer(x)) ==> forall x | x in more :: ByConsumer(x)
    ensures a.Submit? || a.FlushForRoom? || a.GetRoom? || a.CheckAgain? || a.AddRecord? || a.NoticeCancel? ==> BySubmit(a)
    ensures a.Take? || a.SubmitSucceeds? || a.SubmitFails? || a.FailBatch? || a.ReportBarrier? || a.Exit? ==> ByConsumer(a)
  {
    hide Step;
    more := done + [a];
    assert more[..|more| - 1] == done;
  }

  lemma CloseSplits(s: State, drop: bool)
    ensures !s.b.closed ==>
              Step(Step(s, CloseBatcher(drop)), CloseChannel) ==
              WithBook(s.(b := B.DoClose(s.b, drop).(done := true, channelClosed := true), submission := s.submission),
                       BookFlush(s.b, BookOf(s), drop))
  {
    hide Flush, B.DoFlush, BookFlush;
    FlushSplits(s, drop);
    SealCommutes(s.b, drop);
  }

  lemma SealCommutes(b: B.State, drop: bool)
    ensures B.DoFlush(b.(closed := true), drop) == B.DoFlush(b, drop).(closed := true)
  {
  }
}
