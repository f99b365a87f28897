/** The producer over its batcher: permits, the sequential consumer, acknowledgements in any order,
    terminal errors and flush barriers (s2/producer.go).

    The batcher belongs to the producer: records reach it only through Submit, one at a time under
    the submit lock. Acks and failures are chosen by the environment.
 */
module Producing {
  import opened Options
  import opened Errors
  import opened Records
  import opened Capacity
  import B = Batching

  type Batch = B.Batch

  /** What a ticket receives. */
  datatype Outcome = Acked(start: nat, index: nat) | Failed(err: Err)

  datatype Verdict = Landed(start: nat) | Lost(err: Err)

  /** History of a flushed batch; one that is not listed waits in the channel. */
  datatype Fate = Queued | AtConsumer | InFlight | Done(v: Verdict)

  datatype Submission =
    | Free
    | NeedsFlush(record: AppendRecord)   // no room: flush before waiting
    | Waiting(record: AppendRecord)
    | HasRoom(record: AppendRecord)
    | Cleared(record: AppendRecord)      // reserved and checked again, about to be added

  datatype Consumer =
    | Idle
    | Submitting(batch: Batch)
    | Failing(batch: Batch, err: Err)    // waits for the acks in flight
    | AtBarrier(before: nat)
    | Exited

  datatype Flight = Flight(batch: Batch, failed: Option<Err>)

  datatype Report = Report(before: nat, err: Option<Err>)

  datatype State = State(
    b: B.State, cap: Tracker, permits: seq<int>, outcomes: seq<seq<Outcome>>,
    submission: Submission, consumed: nat, consumer: Consumer, inflight: seq<Flight>,
    terminalErr: Option<Err>, appendErr: Option<Err>, closing: bool, cancelled: bool,
    // history
    fate: map<nat, Fate>, reports: seq<Report>)

  datatype Action =
    | Submit(record: AppendRecord, contextDone: bool)
    | FlushForRoom(drop: bool)
    | GetRoom(contextDone: bool)
    | CheckAgain
    | AddRecord(dropBefore: bool, dropAfter: bool)
    | GiveUp
    | FlushBarrier(drop: bool, cancelled: bool)
    | FlushBatch(drop: bool)
    | TimerFires(timerSeq: nat, drop: bool)
    | CloseBatcher(drop: bool)
    | CloseChannel
    | CancelBatcher
    | Take
    | SubmitSucceeds
    | SubmitFails(err: Err)
    | FailBatch
    | Acknowledge(i: nat, start: nat)
    | AckFails(i: nat, err: Err)
    | DispatchFailed(i: nat)
    | ReportBarrier
    | Exit
    | Cancel
    | NoticeCancel(err: Err)
    | StartClosing

  function Init(given: Option<B.BatchingOptions>, maxInflightBytes: nat): State {
    State(B.Init(given), Tracker(maxInflightBytes, 0, 0, 0, false), [], [], Free, 0, Idle, [], None, None, false, false, map[], [])
  }

  /** Errors once recorded stay, reports are not taken back, the limit is fixed, and a terminal error
      shuts the producer down for good. */
  predicate Sticks(s: State, r: State) {
    && (s.terminalErr.Some? ==> r.terminalErr == s.terminalErr)
    && (s.appendErr.Some? ==> r.appendErr == s.appendErr)
    && s.reports <= r.reports
    && r.cap.maxBytes == s.cap.maxBytes
    && (s.closing ==> r.closing) && (s.cancelled ==> r.cancelled) && (s.cap.closed ==> r.cap.closed)
    && (s.terminalErr.None? && r.terminalErr.Some? ==> r.closing && r.cancelled && r.cap.closed)
  }

  // ---- permits and outcomes ----

  /** Permits after those of `meta` were taken; taking swaps in zero. */
  function AfterTake(permits: seq<int>, meta: seq<B.Meta>): (r: seq<int>)
    ensures |r| == |permits|
  {
    if meta == [] then permits
    else
      var r := AfterTake(permits, meta[..|meta| - 1]);
      var t := meta[|meta| - 1].ticket;
      if t < |r| then r[t := 0] else r
  }

  /** What taking them yields in total. */
  function TotalTaken(permits: seq<int>, meta: seq<B.Meta>): int {
    if meta == [] then 0
    else
      var r := AfterTake(permits, meta[..|meta| - 1]);
      var t := meta[|meta| - 1].ticket;
      TotalTaken(permits, meta[..|meta| - 1]) + if t < |r| then r[t] else 0
  }

  function OutcomeOf(v: Verdict, index: nat): Outcome {
    match v
    case Landed(start) => Acked(start, index)
    case Lost(err) => Failed(err)
  }

  /** Tickets after every one of `meta` was resolved. */
  function AfterResolve(outcomes: seq<seq<Outcome>>, meta: seq<B.Meta>, v: Verdict): (r: seq<seq<Outcome>>)
    ensures |r| == |outcomes|
  {
    if meta == [] then outcomes
    else
      var r := AfterResolve(outcomes, meta[..|meta| - 1], v);
      var m := meta[|meta| - 1];
      if m.ticket < |r| then r[m.ticket := r[m.ticket] + [OutcomeOf(v, m.index)]] else r
  }

  /** Capacity given back in one release, then every ticket resolved. */
  function Resolve(s: State, batch: Batch, v: Verdict): (r: State)
    ensures Sticks(s, r) && r.b == s.b
  {
    s.(cap := if TotalTaken(s.permits, batch.meta) > 0 then Release(s.cap, TotalTaken(s.permits, batch.meta)) else s.cap,
       permits := AfterTake(s.permits, batch.meta),
       outcomes := AfterResolve(s.outcomes, batch.meta, v),
       fate := s.fate[batch.first := Done(v)])
  }

  /** `recordTerminalError`: the first error stays. The batcher is closed by a later action. */
  function Terminal(s: State, err: Err): (r: State)
    ensures Sticks(s, r) && r.b == s.b
  {
    if s.terminalErr.Some? then s
    else s.(terminalErr := Some(err), closing := true, cancelled := true, cap := s.cap.(closed := true))
  }

  /** `dispatchBatchError` */
  function Dispatch(s: State, batch: Batch, err: Err): (r: State)
    ensures Sticks(s, r) && r.b == s.b
  {
    Resolve(s.(appendErr := if s.appendErr.None? then Some(err) else s.appendErr), batch, Lost(err))
  }

  // ---- the batcher's side ----

  function Flush(s: State, drop: bool): (r: State)
    ensures Sticks(s, r)
  {
    var t := s.(b := B.DoFlush(s.b, drop));
    if s.b.buffer != [] && drop then Resolve(t, B.NextBatch(s.b), Lost(Cancelled)) else t
  }

  function Put(s: State, record: AppendRecord): (r: State)
    ensures Sticks(s, r)
  {
    s.(b := B.Put(s.b, record, Some(|s.b.accepted|)), permits := s.permits + [RecordBytes(record)], outcomes := s.outcomes + [[]],
       submission := Free)
  }

  function GiveBack(s: State, bytes: nat): (r: State)
    ensures Sticks(s, r) && r.b == s.b
  {
    s.(submission := Free, cap := Release(s.cap, bytes))
  }

  /** `addWithPermit`, with the tickets of dropped batches resolved as they are dropped. */
  function Add(s: State, record: AppendRecord, dropBefore: bool, dropAfter: bool): (r: State)
    ensures Sticks(s, r)
  {
    if !B.Accepts(s.b, record) then GiveBack(s, RecordBytes(record))
    else
      var s1 := if B.Fits(s.b, RecordBytes(record)) then s else Flush(s, dropBefore);
      var s2 := Put(s1, record);
      if B.Full(s2.b) then Flush(s2, dropAfter) else s2.(b := B.ArmTimer(s2.b))
  }

  function Barrier(s: State, drop: bool, cancelled: bool): (r: State)
    ensures Sticks(s, r)
  {
    if s.b.closed then s
    else
      var t := Flush(s, drop);
      if t.b.done || cancelled then t.(b := t.b.(done := true))
      else t.(b := t.b.(sent := t.b.sent + [B.Barrier(|t.b.accepted|)]))
  }

  function Timer(s: State, q: nat, drop: bool): (r: State)
    ensures Sticks(s, r)
  {
    if !s.b.timer || s.b.timerSeq != q || s.b.closed then s.(b := B.DoTimer(s.b, q, drop)) else Flush(s, drop)
  }

  function CloseB(s: State, drop: bool): (r: State)
    ensures Sticks(s, r)
  {
    if s.b.closed then s
    else var t := Flush(s, drop); t.(b := t.b.(closed := true, timer := false))
  }

  // ---- Submit ----
  // The submit context ends some time after cancellation, closing or the batcher's end.

  function Start(s: State, record: AppendRecord, contextDone: bool): (r: State)
    ensures Sticks(s, r) && r.b == s.b
  {
    if !s.submission.Free? || s.terminalErr.Some? || s.closing || s.cancelled || RecordBytes(record) > s.b.opts.maxMeteredBytes then s
    else
      match TryReserve(s.cap, RecordBytes(record), contextDone)
      case (Reserved, cap) => s.(cap := cap, submission := HasRoom(record))
      case (NoRoom, _) => s.(submission := NeedsFlush(record))
      case _ => s
  }

  function FlushRoom(s: State, drop: bool): (r: State)
    ensures Sticks(s, r)
  {
    if !s.submission.NeedsFlush? then s
    else if s.b.closed then s.(submission := Free)
    else Flush(s, drop).(submission := if drop && s.b.buffer != [] then Free else Waiting(s.submission.record))
  }

  function Room(s: State, contextDone: bool): (r: State)
    ensures Sticks(s, r) && r.b == s.b
  {
    if !s.submission.Waiting? then s
    else
      match TryReserve(s.cap, RecordBytes(s.submission.record), contextDone)
      case (Reserved, cap) => s.(cap := cap, submission := HasRoom(s.submission.record))
      case (NoRoom, _) => s
      case _ => s.(submission := Free)
  }

  function Check(s: State): (r: State)
    ensures Sticks(s, r) && r.b == s.b
  {
    if !s.submission.HasRoom? then s
    else if s.terminalErr.Some? || s.closing || s.cancelled then GiveBack(s, RecordBytes(s.submission.record))
    else s.(submission := Cleared(s.submission.record))
  }

  // ---- the consumer ----

  function TakeItem(s: State): (r: State)
    ensures Sticks(s, r) && r.b == s.b
  {
    if !s.consumer.Idle? || s.consumed >= |s.b.sent| then s
    else
      var item := s.b.sent[s.consumed];
      var t := s.(consumed := s.consumed + 1);
      if item.Barrier? then t.(consumer := AtBarrier(item.before))
      else if s.terminalErr.Some? then Dispatch(t, item.batch, s.terminalErr.value)
      else t.(consumer := Submitting(item.batch), fate := s.fate[item.batch.first := AtConsumer])
  }

  function Without(fs: seq<Flight>, i: nat): seq<Flight>
    requires i < |fs|
  {
    fs[..i] + fs[i + 1..]
  }

  function Accepted(s: State): (r: State)
    ensures Sticks(s, r) && r.b == s.b
  {
    if !s.consumer.Submitting? then s
    else s.(consumer := Idle, inflight := s.inflight + [Flight(s.consumer.batch, None)], fate := s.fate[s.consumer.batch.first := InFlight])
  }

  function Rejected(s: State, err: Err): (r: State)
    ensures Sticks(s, r) && r.b == s.b
  {
    if !s.consumer.Submitting? then s
    else var t := Terminal(s, err); t.(consumer := Failing(s.consumer.batch, t.terminalErr.value))
  }

  function FailNow(s: State): (r: State)
    ensures Sticks(s, r) && r.b == s.b
  {
    if !s.consumer.Failing? || s.inflight != [] then s
    else Dispatch(s.(consumer := Idle), s.consumer.batch, s.consumer.err)
  }

  function Ack(s: State, i: nat, start: nat): (r: State)
    ensures Sticks(s, r) && r.b == s.b
  {
    if i >= |s.inflight| || s.inflight[i].failed.Some? then s
    else Resolve(s.(inflight := Without(s.inflight, i)), s.inflight[i].batch, Landed(start))
  }

  function Nack(s: State, i: nat, err: Err): (r: State)
    ensures Sticks(s, r) && r.b == s.b
  {
    if i >= |s.inflight| || s.inflight[i].failed.Some? then s
    else var t := Terminal(s, err); t.(inflight := t.inflight[i := Flight(t.inflight[i].batch, t.terminalErr)])
  }

  function DispatchOne(s: State, i: nat): (r: State)
    ensures Sticks(s, r) && r.b == s.b
  {
    if i >= |s.inflight| || s.inflight[i].failed.None? then s
    else Dispatch(s.(inflight := Without(s.inflight, i)), s.inflight[i].batch, s.inflight[i].failed.value)
  }

  function Answer(s: State): (r: State)
    ensures Sticks(s, r) && r.b == s.b
  {
    if !s.consumer.AtBarrier? || s.inflight != [] then s
    else s.(consumer := Idle, reports := s.reports + [Report(s.consumer.before, s.appendErr)])
  }

  function Step(s: State, a: Action): State {
    match a
    case Submit(record, contextDone) => Start(s, record, contextDone)
    case FlushForRoom(drop) => FlushRoom(s, drop)
    case GetRoom(contextDone) => Room(s, contextDone)
    case CheckAgain => Check(s)
    case AddRecord(d1, d2) => if s.submission.Cleared? then Add(s, s.submission.record, d1, d2) else s
    case GiveUp => if s.submission.NeedsFlush? || s.submission.Waiting? then s.(submission := Free) else s
    case FlushBarrier(drop, cancelled) => Barrier(s, drop, cancelled)
    case FlushBatch(drop) => Flush(s, drop)
    case TimerFires(q, drop) => Timer(s, q, drop)
    case CloseBatcher(drop) => CloseB(s, drop)
    case CloseChannel => s.(b := B.Step(s.b, B.CloseChannel))
    case CancelBatcher => s.(b := B.Step(s.b, B.CancelContext))
    case Take => TakeItem(s)
    case SubmitSucceeds => Accepted(s)
    case SubmitFails(err) => Rejected(s, err)
    case FailBatch => FailNow(s)
    case Acknowledge(i, start) => Ack(s, i, start)
    case AckFails(i, err) => Nack(s, i, err)
    case DispatchFailed(i) => DispatchOne(s, i)
    case ReportBarrier => Answer(s)
    case Exit => if s.consumer.Idle? && s.b.channelClosed && s.consumed >= |s.b.sent| && s.inflight == [] then s.(consumer := Exited) else s
    case Cancel => s.(cancelled := true)
    case NoticeCancel(err) => if s.cancelled || s.b.done then Terminal(s, err) else s
    case StartClosing => s.(closing := true, cap := s.cap.(closed := true))
  }

  // ---- invariants ----

  function FateOf(fate: map<nat, Fate>, batch: Batch): Fate { if batch.first in fate then fate[batch.first] else Queued }

  ghost predicate Ticketed(tickets: seq<Option<nat>>) {
    forall i | 0 <= i < |tickets| :: tickets[i] == Some(i)
  }

  /** A record's ticket and permit once its batch met the given fate: resolved and released exactly when done. */
  ghost predicate RecordAgrees(i: int, first: nat, fate: Fate, outcome: seq<Outcome>, permit: int, r: AppendRecord) {
    if fate.Done? then outcome == [OutcomeOf(fate.v, if i >= first then i - first else 0)] && permit == 0
    else outcome == [] && permit == RecordBytes(r)
  }

  ghost predicate BatchAgrees(batch: Batch, fate: Fate, outcomes: seq<seq<Outcome>>, permits: seq<int>, accepted: seq<AppendRecord>)
    requires |outcomes| == |permits| == |accepted|
  {
    && batch.first + B.Count(batch) <= |accepted|
    && forall i | batch.first <= i < batch.first + B.Count(batch) :: RecordAgrees(i, batch.first, fate, outcomes[i], permits[i], accepted[i])
  }

  ghost predicate RecordsAgree(flushed: seq<B.Flushed>, fate: map<nat, Fate>, outcomes: seq<seq<Outcome>>, permits: seq<int>,
                               accepted: seq<AppendRecord>, start: nat) {
    && |outcomes| == |permits| == |accepted|
    && (forall i | start <= i < |accepted| :: RecordAgrees(i, i, Queued, outcomes[i], permits[i], accepted[i]))
    && (forall k | 0 <= k < |flushed| :: BatchAgrees(flushed[k].batch, FateOf(fate, flushed[k].batch), outcomes, permits, accepted))
  }

  /** Fates are of flushed batches; a dropped batch is lost. */
  ghost predicate FatesKnown(flushed: seq<B.Flushed>, fate: map<nat, Fate>, start: nat) {
    && (forall f | f in fate :: f < start)
    && (forall k | 0 <= k < |flushed| && !flushed[k].emitted :: FateOf(fate, flushed[k].batch) == Done(Lost(Cancelled)))
  }

  ghost predicate Holder(consumer: Consumer, batch: Batch) {
    (consumer.Submitting? || consumer.Failing?) && consumer.batch == batch
  }

  ghost predicate Flying(inflight: seq<Flight>, batch: Batch) {
    exists m :: 0 <= m < |inflight| && inflight[m].batch == batch
  }

  /** The channel, the consumer and the acks in flight hold the batches that are not done. */
  ghost predicate Placed(sent: seq<B.Item>, consumed: nat, consumer: Consumer, inflight: seq<Flight>, fate: map<nat, Fate>) {
    && consumed <= |sent|
    && (forall j | consumed <= j < |sent| && sent[j].Records? :: FateOf(fate, sent[j].batch).Queued?)
    && (forall j | 0 <= j < consumed && sent[j].Records? ::
          match FateOf(fate, sent[j].batch)
          case Queued => false
          case AtConsumer => Holder(consumer, sent[j].batch)
          case InFlight => Flying(inflight, sent[j].batch)
          case Done(_) => true)
  }

  ghost predicate Held(sent: seq<B.Item>, consumed: nat, consumer: Consumer, inflight: seq<Flight>, fate: map<nat, Fate>) {
    && consumed <= |sent|
    && (consumer.Submitting? || consumer.Failing? ==>
          FateOf(fate, consumer.batch).AtConsumer? && B.Records(consumer.batch) in sent[..consumed])
    && (forall m | 0 <= m < |inflight| :: FateOf(fate, inflight[m].batch).InFlight? && B.Records(inflight[m].batch) in sent[..consumed])
    && (forall m, n | 0 <= m < n < |inflight| :: inflight[m].batch.first != inflight[n].batch.first)
    && (consumer.AtBarrier? ==> consumed > 0 && sent[consumed - 1] == B.Barrier(consumer.before))
  }

  ghost predicate LostOne(sent: seq<B.Item>, consumed: nat, fate: map<nat, Fate>, err: Err)
    requires consumed <= |sent|
  {
    exists j :: 0 <= j < consumed && sent[j].Records? && FateOf(fate, sent[j].batch) == Done(Lost(err))
  }

  /** An append error is the first terminal error, and stands for a batch of the channel that was lost. */
  ghost predicate ErrorsAgree(sent: seq<B.Item>, consumed: nat, fate: map<nat, Fate>, appendErr: Option<Err>, terminalErr: Option<Err>) {
    && consumed <= |sent|
    && (appendErr.Some? ==> appendErr == terminalErr && LostOne(sent, consumed, fate, appendErr.value))
    && (appendErr.None? ==> forall j | 0 <= j < consumed && sent[j].Records? && FateOf(fate, sent[j].batch).Done? ::
          FateOf(fate, sent[j].batch).v.Landed?)
  }

  ghost predicate FailuresAgree(consumer: Consumer, inflight: seq<Flight>, terminalErr: Option<Err>) {
    && (consumer.Failing? ==> terminalErr == Some(consumer.err))
    && (forall m | 0 <= m < |inflight| && inflight[m].failed.Some? :: terminalErr == inflight[m].failed)
  }

  ghost predicate ReportExact(r: Report, outcomes: seq<seq<Outcome>>, terminalErr: Option<Err>) {
    && r.before <= |outcomes|
    && (forall i | 0 <= i < r.before :: |outcomes[i]| == 1)
    && (r.err.None? <==> forall i | 0 <= i < r.before :: outcomes[i] != [] && outcomes[i][0].Acked?)
    && (r.err.Some? ==> r.err == terminalErr)
  }

  ghost predicate ReportsExact(reports: seq<Report>, outcomes: seq<seq<Outcome>>, terminalErr: Option<Err>) {
    forall k | 0 <= k < |reports| :: ReportExact(reports[k], outcomes, terminalErr)
  }

  function Reservation(submission: Submission): nat {
    if submission.HasRoom? || submission.Cleared? then RecordBytes(submission.record) else 0
  }

  /** The tracker counts exactly the permits not yet taken and the reservation of a running Submit. */
  ghost predicate CapacityExact(cap: Tracker, permits: seq<int>, submission: Submission) {
    && cap.maxItems == 0 && cap.curItems == 0
    && (forall i | 0 <= i < |permits| :: permits[i] >= 0)
    && cap.curBytes == Sum(permits) + Reservation(submission)
    && WithinLimits(cap)
  }

  /** While Submit waits for room, nothing of its own holds the buffer. */
  ghost predicate WaitsClear(submission: Submission, buffer: seq<AppendRecord>) {
    submission.Waiting? ==> buffer == []
  }

  /** Records, tickets, permits and reports. */
  ghost predicate Books(s: State) {
    && B.Core(s.b)
    && Ticketed(s.b.tickets)
    && RecordsAgree(s.b.flushed, s.fate, s.outcomes, s.permits, s.b.accepted, B.Start(s.b))
    && ReportsExact(s.reports, s.outcomes, s.terminalErr)
    && CapacityExact(s.cap, s.permits, s.submission)
  }

  /** Who holds which batch, and the errors seen. */
  ghost predicate Places(sent: seq<B.Item>, consumed: nat, consumer: Consumer, inflight: seq<Flight>, fate: map<nat, Fate>,
                         appendErr: Option<Err>, terminalErr: Option<Err>) {
    && Placed(sent, consumed, consumer, inflight, fate)
    && Held(sent, consumed, consumer, inflight, fate)
    && ErrorsAgree(sent, consumed, fate, appendErr, terminalErr)
    && FailuresAgree(consumer, inflight, terminalErr)
  }

  /** What also holds in the middle of `Add`. */
  ghost predicate Core(s: State) {
    && Books(s)
    && FatesKnown(s.b.flushed, s.fate, B.Start(s.b))
    && Places(s.b.sent, s.consumed, s.consumer, s.inflight, s.fate, s.appendErr, s.terminalErr)
    && WaitsClear(s.submission, s.b.buffer)
    && (s.b.channelClosed ==> s.b.closed)
  }

  ghost predicate Inv(s: State) { Core(s) && B.Inv(s.b) }

  // ---- taking permits and resolving tickets, record by record ----

  /** The tickets of a batch are those of its own records, in order. */
  ghost predicate OwnTickets(meta: seq<B.Meta>, first: nat) {
    forall j | 0 <= j < |meta| :: meta[j] == B.Meta(j, first + j)
  }

  lemma {:induction false} MetaOfOwn(tickets: seq<Option<nat>>, first: nat)
    requires forall j | 0 <= j < |tickets| :: tickets[j] == Some(first + j)
    ensures |B.MetaOf(tickets)| == |tickets| && OwnTickets(B.MetaOf(tickets), first)
    decreases |tickets|
  {
    if tickets != [] { MetaOfOwn(tickets[..|tickets| - 1], first); }
  }

  lemma {:induction false} SumUpdate(a: seq<int>, k: nat, v: int)
    requires k < |a|
    ensures Sum(a[k := v]) == Sum(a) - a[k] + v
  {
    SumRemove(a, k);
    SumRemove(a[k := v], k);
    assert a[k := v][..k] == a[..k] && a[k := v][k + 1..] == a[k + 1..];
  }

  /** Taking moves bytes, it does not lose any. */
  lemma {:induction false} TakeConserves(permits: seq<int>, meta: seq<B.Meta>)
    ensures Sum(AfterTake(permits, meta)) + TotalTaken(permits, meta) == Sum(permits)
    decreases |meta|
  {
    if meta != [] {
      TakeConserves(permits, meta[..|meta| - 1]);
      var r := AfterTake(permits, meta[..|meta| - 1]);
      var t := meta[|meta| - 1].ticket;
      if t < |r| { SumUpdate(r, t, 0); }
    }
  }

  lemma {:induction false} TakeEach(permits: seq<int>, meta: seq<B.Meta>, first: nat)
    requires OwnTickets(meta, first) && first + |meta| <= |permits|
    ensures forall i | 0 <= i < |permits| :: AfterTake(permits, meta)[i] == if first <= i < first + |meta| then 0 else permits[i]
    decreases |meta|
  {
    if meta != [] { TakeEach(permits, meta[..|meta| - 1], first); }
  }

  lemma {:induction false} ResolveEach(outcomes: seq<seq<Outcome>>, meta: seq<B.Meta>, v: Verdict, first: nat)
    requires OwnTickets(meta, first) && first + |meta| <= |outcomes|
    ensures forall i | 0 <= i < |outcomes| ::
              AfterResolve(outcomes, meta, v)[i] == if first <= i < first + |meta| then outcomes[i] + [OutcomeOf(v, i - first)] else outcomes[i]
    decreases |meta|
  {
    if meta != [] { ResolveEach(outcomes, meta[..|meta| - 1], v, first); }
  }

  // ---- what the batcher guarantees ----

  lemma {:induction false} EmittedIndex(flushed: seq<B.Flushed>, batch: Batch) returns (k: nat)
    requires batch in B.Emitted(flushed)
    ensures k < |flushed| && flushed[k] == B.Flushed(batch, true)
    decreases |flushed|
  {
    k := |flushed| - 1;
    if !flushed[k].emitted || flushed[k].batch != batch { k := EmittedIndex(flushed[..k], batch); }
  }

  lemma SentIndex(b: B.State, batch: Batch) returns (k: nat)
    requires B.Core(b) && B.Records(batch) in b.sent
    ensures k < |b.flushed| && b.flushed[k] == B.Flushed(batch, true)
  {
    hide B.Batches, B.Emitted;
    B.BatchesIn(b.sent, batch);
    k := EmittedIndex(b.flushed, batch);
  }

  lemma {:induction false} TilesApart(flushed: seq<B.Flushed>, start: nat, i: nat, j: nat)
    requires B.Tiles(flushed, start) && i < j < |flushed|
    ensures flushed[i].batch.first + B.Count(flushed[i].batch) <= flushed[j].batch.first
    decreases j
  {
    assert flushed[j - 1].batch.first + B.Count(flushed[j - 1].batch) == flushed[j - 1 + 1].batch.first;
    if i < j - 1 { TilesApart(flushed, start, i, j - 1); }
  }

  lemma {:induction false} TilesBelow(flushed: seq<B.Flushed>, start: nat, i: nat)
    requires B.Tiles(flushed, start) && i < |flushed|
    ensures flushed[i].batch.first + B.Count(flushed[i].batch) <= start
  {
    if i < |flushed| - 1 { TilesApart(flushed, start, i, |flushed| - 1); }
  }

  /** A flushed batch: not empty, below the buffer, with the tickets of its own records. */
  lemma FlushedFacts(b: B.State, k: nat)
    requires B.Core(b) && Ticketed(b.tickets) && k < |b.flushed|
    ensures var batch := b.flushed[k].batch;
            && B.Count(batch) >= 1 && batch.first + B.Count(batch) <= B.Start(b) <= |b.accepted|
            && |batch.meta| == B.Count(batch) && OwnTickets(batch.meta, batch.first)
  {
    hide B.Tiles, B.Batches, B.Emitted, B.BarriersCover, B.ItemsOrdered, B.Conditional;
    var batch := b.flushed[k].batch;
    assert B.Faithful(batch, b.accepted, b.tickets) && B.WithinLimits(batch, b.opts);
    TilesBelow(b.flushed, B.Start(b), k);
    MetaOfOwn(b.tickets[batch.first..batch.first + B.Count(batch)], batch.first);
  }

  /** No two batches of the channel start at the same record. */
  ghost predicate Distinct(sent: seq<B.Item>) {
    forall i, j | 0 <= i < j < |sent| && sent[i].Records? && sent[j].Records? :: sent[i].batch.first != sent[j].batch.first
  }

  lemma SentFacts(b: B.State)
    requires B.Core(b) && Ticketed(b.tickets)
    ensures Distinct(b.sent)
    ensures forall i | 0 <= i < |b.sent| && b.sent[i].Records? ::
              b.sent[i].batch.first + B.Count(b.sent[i].batch) <= B.Start(b) && B.Count(b.sent[i].batch) >= 1
  {
    hide B.Tiles, B.Batches, B.Emitted, B.BarriersCover, B.Conditional, B.FlushedWell, B.BufferWell, B.TimerWell, OwnTickets;
    forall i | 0 <= i < |b.sent| && b.sent[i].Records?
      ensures b.sent[i].batch.first + B.Count(b.sent[i].batch) <= B.Start(b) && B.Count(b.sent[i].batch) >= 1
    {
      var k := SentIndex(b, b.sent[i].batch);
      FlushedFacts(b, k);
    }
  }

  // ---- resolving a batch ----

  lemma ResolveOther(batch: Batch, v: Verdict, other: Batch, fate: Fate, outcomes: seq<seq<Outcome>>, permits: seq<int>, accepted: seq<AppendRecord>)
    requires |outcomes| == |permits| == |accepted| && BatchAgrees(other, fate, outcomes, permits, accepted)
    requires OwnTickets(batch.meta, batch.first) && |batch.meta| == B.Count(batch) && batch.first + B.Count(batch) <= |accepted|
    requires batch.first + B.Count(batch) <= other.first || other.first + B.Count(other) <= batch.first
    ensures BatchAgrees(other, fate, AfterResolve(outcomes, batch.meta, v), AfterTake(permits, batch.meta), accepted)
  {
    hide RecordAgrees;
    TakeEach(permits, batch.meta, batch.first);
    ResolveEach(outcomes, batch.meta, v, batch.first);
  }

  lemma ResolveOwn(batch: Batch, v: Verdict, fate: Fate, outcomes: seq<seq<Outcome>>, permits: seq<int>, accepted: seq<AppendRecord>)
    requires |outcomes| == |permits| == |accepted| && BatchAgrees(batch, fate, outcomes, permits, accepted) && !fate.Done?
    requires OwnTickets(batch.meta, batch.first) && |batch.meta| == B.Count(batch)
    ensures BatchAgrees(batch, Done(v), AfterResolve(outcomes, batch.meta, v), AfterTake(permits, batch.meta), accepted)
  {
    hide RecordBytes, AfterTake, AfterResolve, OutcomeOf, OwnTickets;
    TakeEach(permits, batch.meta, batch.first);
    ResolveEach(outcomes, batch.meta, v, batch.first);
    var after, left := AfterResolve(outcomes, batch.meta, v), AfterTake(permits, batch.meta);
    forall i | batch.first <= i < batch.first + B.Count(batch) ensures RecordAgrees(i, batch.first, Done(v), after[i], left[i], accepted[i]) {
      assert RecordAgrees(i, batch.first, fate, outcomes[i], permits[i], accepted[i]);
      assert after[i] == [] + [OutcomeOf(v, i - batch.first)];
    }
  }

  lemma ResolveRecords(s: State, k: nat, v: Verdict)
    requires B.Core(s.b) && Ticketed(s.b.tickets) && k < |s.b.flushed| && !FateOf(s.fate, s.b.flushed[k].batch).Done?
    requires RecordsAgree(s.b.flushed, s.fate, s.outcomes, s.permits, s.b.accepted, B.Start(s.b))
    ensures var batch := s.b.flushed[k].batch;
            RecordsAgree(s.b.flushed, s.fate[batch.first := Done(v)], AfterResolve(s.outcomes, batch.meta, v),
                         AfterTake(s.permits, batch.meta), s.b.accepted, B.Start(s.b))
  {
    hide B.Core, BatchAgrees, OwnTickets, RecordAgrees;
    var batch := s.b.flushed[k].batch;
    var fate := s.fate[batch.first := Done(v)];
    var outcomes, permits := AfterResolve(s.outcomes, batch.meta, v), AfterTake(s.permits, batch.meta);
    FlushedFacts(s.b, k);
    TakeEach(s.permits, batch.meta, batch.first);
    ResolveEach(s.outcomes, batch.meta, v, batch.first);
    forall m | 0 <= m < |s.b.flushed| ensures BatchAgrees(s.b.flushed[m].batch, FateOf(fate, s.b.flushed[m].batch), outcomes, permits, s.b.accepted) {
      if m == k {
        ResolveOwn(batch, v, FateOf(s.fate, batch), s.outcomes, s.permits, s.b.accepted);
      } else {
        FlushedFacts(s.b, m);
        FlushedApart(s.b, m, k);
        ResolveOther(batch, v, s.b.flushed[m].batch, FateOf(s.fate, s.b.flushed[m].batch), s.outcomes, s.permits, s.b.accepted);
      }
    }
  }

  lemma FlushedApart(b: B.State, m: nat, k: nat)
    requires B.Core(b) && m < |b.flushed| && k < |b.flushed| && m != k
    ensures var x, y := b.flushed[m].batch, b.flushed[k].batch;
            x.first + B.Count(x) <= y.first || y.first + B.Count(y) <= x.first
  {
    if m < k { TilesApart(b.flushed, B.Start(b), m, k); } else { TilesApart(b.flushed, B.Start(b), k, m); }
  }

  lemma {:induction false} TakeKeepsSigns(permits: seq<int>, meta: seq<B.Meta>)
    requires forall i | 0 <= i < |permits| :: permits[i] >= 0
    ensures TotalTaken(permits, meta) >= 0
    ensures forall i | 0 <= i < |permits| :: AfterTake(permits, meta)[i] >= 0
    decreases |meta|
  {
    if meta != [] { TakeKeepsSigns(permits, meta[..|meta| - 1]); }
  }

  lemma {:induction false} SumOfNaturals(a: seq<int>)
    requires forall i | 0 <= i < |a| :: a[i] >= 0
    ensures Sum(a) >= 0
  {
    if a != [] { SumOfNaturals(a[1..]); }
  }

  /** Giving back what was taken never meets the clamp at zero. */
  lemma ResolveCapacity(s: State, meta: seq<B.Meta>)
    requires CapacityExact(s.cap, s.permits, s.submission)
    ensures var n := TotalTaken(s.permits, meta);
            && n >= 0
            && CapacityExact(if n > 0 then Release(s.cap, n) else s.cap, AfterTake(s.permits, meta), s.submission)
  {
    TakeConserves(s.permits, meta);
    TakeKeepsSigns(s.permits, meta);
    SumOfNaturals(AfterTake(s.permits, meta));
  }

  lemma ResolveReports(s: State, batch: Batch, v: Verdict)
    requires ReportsExact(s.reports, s.outcomes, s.terminalErr)
    requires OwnTickets(batch.meta, batch.first) && |batch.meta| == B.Count(batch) && batch.first + B.Count(batch) <= |s.outcomes|
    requires forall i | batch.first <= i < batch.first + B.Count(batch) :: s.outcomes[i] == []
    ensures ReportsExact(s.reports, AfterResolve(s.outcomes, batch.meta, v), s.terminalErr)
  {
    ResolveEach(s.outcomes, batch.meta, v, batch.first);
    var after := AfterResolve(s.outcomes, batch.meta, v);
    forall k | 0 <= k < |s.reports| ensures ReportExact(s.reports[k], after, s.terminalErr) {
      assert ReportExact(s.reports[k], s.outcomes, s.terminalErr);
      assert forall i | 0 <= i < s.reports[k].before :: after[i] == s.outcomes[i];
    }
  }

  lemma ResolveBooks(s: State, k: nat, v: Verdict)
    requires Books(s) && k < |s.b.flushed| && !FateOf(s.fate, s.b.flushed[k].batch).Done?
    ensures Books(Resolve(s, s.b.flushed[k].batch, v))
  {
    hide B.Core, ReportsExact, CapacityExact, AfterTake, AfterResolve, OwnTickets, Ticketed;
    var batch := s.b.flushed[k].batch;
    FlushedFacts(s.b, k);
    ResolveCapacity(s, batch.meta);
    assert BatchAgrees(batch, FateOf(s.fate, batch), s.outcomes, s.permits, s.b.accepted);
    ResolveReports(s, batch, v);
    ResolveRecords(s, k, v);
  }
}
