/** The batcher: records accumulate and leave as batches by size, count, time or demand (s2/batcher.go).

    Every action is one critical section of the batcher's mutex. Sending a batch races against the
    batcher's context: `drop` says that cancellation won, which cancels the context if it was not
    cancelled already. Room in the channel is not modelled; a send without room only takes longer.
 */
module Batching {
  import opened Options
  import opened Errors
  import opened Framing
  import opened Records

  datatype BatchingOptions = BatchingOptions(linger: int, maxRecords: int, maxMeteredBytes: nat,
                                             matchSeqNum: Option<nat>, fencingToken: Option<seq<Byte>>, channelBuffer: int)

  const DEFAULT_LINGER: int := 5_000_000
  const TWO64: nat := 0x1_0000_0000_0000_0000

  function ApplyDefaults(given: Option<BatchingOptions>): (o: BatchingOptions)
    ensures 1 <= o.maxRecords <= MAX_BATCH_RECORDS
    ensures 1 <= o.maxMeteredBytes <= MAX_BATCH_METERED_BYTES
    ensures o.linger != 0 && o.channelBuffer > 0
    ensures given.Some? ==> o.matchSeqNum == given.value.matchSeqNum && o.fencingToken == given.value.fencingToken
    ensures given.Some? && 1 <= given.value.maxRecords <= MAX_BATCH_RECORDS ==> o.maxRecords == given.value.maxRecords
    ensures given.Some? && 1 <= given.value.maxMeteredBytes <= MAX_BATCH_METERED_BYTES ==> o.maxMeteredBytes == given.value.maxMeteredBytes
  {
    var o := if given.Some? then given.value else BatchingOptions(0, 0, 0, None, None, 0);
    o.(linger := if o.linger == 0 then DEFAULT_LINGER else o.linger,
       maxRecords := if o.maxRecords <= 0 || o.maxRecords > MAX_BATCH_RECORDS then MAX_BATCH_RECORDS else o.maxRecords,
       maxMeteredBytes := if o.maxMeteredBytes == 0 || o.maxMeteredBytes > MAX_BATCH_METERED_BYTES then MAX_BATCH_METERED_BYTES
                          else o.maxMeteredBytes,
       channelBuffer := if o.channelBuffer <= 0 then 100 else o.channelBuffer)
  }

  /** Where a tracked record stands in its batch, and the ticket waiting for it. */
  datatype Meta = Meta(index: nat, ticket: nat)

  /** `first` counts the records accepted before this batch. */
  datatype Batch = Batch(first: nat, input: AppendInput, meta: seq<Meta>)

  /** What goes through the channel. A barrier covers the records accepted before it. */
  datatype Item = Records(batch: Batch) | Barrier(before: nat)

  datatype Flushed = Flushed(batch: Batch, emitted: bool)

  datatype State = State(
    opts: BatchingOptions, buffer: seq<AppendRecord>, bufferBytes: nat, meta: seq<Meta>,
    timer: bool, timerSeq: nat, closed: bool, closeErr: Option<Err>, nextMatch: Option<nat>,
    done: bool, channelClosed: bool,
    // history
    sent: seq<Item>, accepted: seq<AppendRecord>, tickets: seq<Option<nat>>, flushed: seq<Flushed>,
    armed: seq<nat>)         // armed[k]: where the buffer started when timer k + 1 was set

  datatype Action =
    | Add(record: AppendRecord, ticket: Option<nat>, dropBefore: bool, dropAfter: bool)
    | Flush(drop: bool)
    | FlushForBackpressure(drop: bool)
    | FlushBarrier(drop: bool, cancelled: bool)
    | TimerFires(timerSeq: nat, drop: bool)
    | Close(drop: bool)
    | CloseChannel
    | CancelContext

  function Init(given: Option<BatchingOptions>): State {
    var o := ApplyDefaults(given);
    State(o, [], 0, [], false, 0, false, None, o.matchSeqNum, false, false, [], [], [], [], [])
  }

  /** The accepted records already flushed. */
  function Start(s: State): nat { if |s.buffer| <= |s.accepted| then |s.accepted| - |s.buffer| else 0 }

  function NextBatch(s: State): Batch {
    Batch(Start(s), AppendInput(s.buffer, s.nextMatch, s.opts.fencingToken), s.meta)
  }

  /** `flushLocked` */
  function DoFlush(s: State, drop: bool): (t: State)
    ensures t.opts == s.opts
  {
    if s.buffer == [] then s
    else
      var b := NextBatch(s);
      var t := s.(buffer := [], bufferBytes := 0, meta := [], timer := false, flushed := s.flushed + [Flushed(b, !drop)]);
      if drop then t.(done := true, closeErr := if s.closeErr.None? then Some(Cancelled) else s.closeErr)
      else t.(sent := s.sent + [Records(b)],
              nextMatch := if s.nextMatch.Some? then Some((s.nextMatch.value + |s.buffer|) % TWO64) else None)
  }

  predicate Fits(s: State, n: nat) {
    s.buffer == [] || (|s.buffer| + 1 <= s.opts.maxRecords && s.bufferBytes + n <= s.opts.maxMeteredBytes)
  }

  predicate Full(s: State) {
    |s.buffer| >= s.opts.maxRecords || s.bufferBytes >= s.opts.maxMeteredBytes
  }

  function Put(s: State, record: AppendRecord, ticket: Option<nat>): (t: State)
    ensures t.opts == s.opts
  {
    s.(buffer := s.buffer + [record], bufferBytes := s.bufferBytes + RecordBytes(record),
       meta := if ticket.Some? then s.meta + [Meta(|s.buffer|, ticket.value)] else s.meta,
       accepted := s.accepted + [record], tickets := s.tickets + [ticket])
  }

  function ArmTimer(s: State): (t: State)
    ensures t.opts == s.opts
  {
    if s.opts.linger > 0 && !s.timer then s.(timer := true, timerSeq := s.timerSeq + 1, armed := s.armed + [Start(s)])
    else s
  }

  predicate Accepts(s: State, record: AppendRecord) {
    !s.closed && RecordBytes(record) <= s.opts.maxMeteredBytes
  }

  /** `addWithPermit` */
  function DoAdd(s: State, record: AppendRecord, ticket: Option<nat>, dropBefore: bool, dropAfter: bool): (t: State)
    ensures t.opts == s.opts
  {
    if !Accepts(s, record) then s
    else
      var s1 := if Fits(s, RecordBytes(record)) then s else DoFlush(s, dropBefore);
      var s2 := Put(s1, record, ticket);
      if Full(s2) then DoFlush(s2, dropAfter) else ArmTimer(s2)
  }

  /** `flushBarrier`; the context may be found cancelled once the batch is out. */
  function DoBarrier(s: State, drop: bool, cancelled: bool): (t: State)
    ensures t.opts == s.opts
  {
    if s.closed then s
    else
      var t := DoFlush(s, drop);
      if t.done || cancelled then t.(done := true)
      else t.(sent := t.sent + [Barrier(|t.accepted|)])
  }

  function DoTimer(s: State, timerSeq: nat, drop: bool): (t: State)
    ensures t.opts == s.opts
  {
    if !s.timer || s.timerSeq != timerSeq then s
    else
      var t := s.(timer := false);
      if t.closed then t else DoFlush(t, drop)
  }

  /** `close`, its locked part. */
  function DoClose(s: State, drop: bool): (t: State)
    ensures t.opts == s.opts
  {
    if s.closed then s else DoFlush(s.(closed := true), drop).(timer := false)
  }

  function Step(s: State, a: Action): (t: State)
    ensures t.opts == s.opts
  {
    match a
    case Add(record, ticket, dropBefore, dropAfter) => DoAdd(s, record, ticket, dropBefore, dropAfter)
    case Flush(drop) => DoFlush(s, drop)
    case FlushForBackpressure(drop) => if s.closed then s else DoFlush(s, drop)
    case FlushBarrier(drop, cancelled) => DoBarrier(s, drop, cancelled)
    case TimerFires(q, drop) => DoTimer(s, q, drop)
    case Close(drop) => DoClose(s, drop)
    case CloseChannel => if s.closed then s.(done := true, channelClosed := true) else s
    case CancelContext => s.(done := true)
  }

  // ---- invariants ----

  /** The tracked records of a batch: their places and tickets, in order. */
  function MetaOf(tickets: seq<Option<nat>>): seq<Meta> {
    if tickets == [] then []
    else
      var k := |tickets| - 1;
      if tickets[k].Some? then MetaOf(tickets[..k]) + [Meta(k, tickets[k].value)] else MetaOf(tickets[..k])
  }

  function Count(b: Batch): nat { |b.input.records| }

  /** Batches lie end to end over the accepted records, `start` being where the last one ends. */
  ghost predicate Tiles(flushed: seq<Flushed>, start: nat) {
    && (flushed == [] ==> start == 0)
    && (flushed != [] ==> flushed[0].batch.first == 0)
    && (forall k | 0 <= k < |flushed| - 1 :: flushed[k].batch.first + Count(flushed[k].batch) == flushed[k + 1].batch.first)
    && (flushed != [] ==> flushed[|flushed| - 1].batch.first + Count(flushed[|flushed| - 1].batch) == start)
  }

  /** A flushed batch holds the accepted records at its place, and their tickets. */
  ghost predicate Faithful(b: Batch, accepted: seq<AppendRecord>, tickets: seq<Option<nat>>) {
    && b.first + Count(b) <= |accepted| == |tickets|
    && b.input.records == accepted[b.first..b.first + Count(b)]
    && b.meta == MetaOf(tickets[b.first..b.first + Count(b)])
  }

  ghost predicate WithinLimits(b: Batch, opts: BatchingOptions) {
    && 1 <= Count(b) <= opts.maxRecords
    && BatchBytes(b.input.records) <= opts.maxMeteredBytes
    && b.input.fencingToken == opts.fencingToken
  }

  ghost predicate FlushedWell(flushed: seq<Flushed>, opts: BatchingOptions, accepted: seq<AppendRecord>, tickets: seq<Option<nat>>) {
    forall k | 0 <= k < |flushed| :: Faithful(flushed[k].batch, accepted, tickets) && WithinLimits(flushed[k].batch, opts)
  }

  ghost predicate BufferWell(s: State) {
    && |s.buffer| <= |s.accepted| == |s.tickets|
    && s.buffer == s.accepted[Start(s)..]
    && s.meta == MetaOf(s.tickets[Start(s)..])
    && s.bufferBytes == BatchBytes(s.buffer)
    && |s.buffer| <= s.opts.maxRecords && s.bufferBytes <= s.opts.maxMeteredBytes
  }

  function Emitted(flushed: seq<Flushed>): seq<Batch> {
    if flushed == [] then []
    else
      var k := |flushed| - 1;
      if flushed[k].emitted then Emitted(flushed[..k]) + [flushed[k].batch] else Emitted(flushed[..k])
  }

  function Batches(items: seq<Item>): seq<Batch> {
    if items == [] then []
    else
      var k := |items| - 1;
      if items[k].Records? then Batches(items[..k]) + [items[k].batch] else Batches(items[..k])
  }

  function RecordsIn(bs: seq<Batch>): nat {
    if bs == [] then 0 else RecordsIn(bs[..|bs| - 1]) + Count(bs[|bs| - 1])
  }

  /** The condition a batch must carry after the given ones went out. */
  function MatchAfter(initial: Option<nat>, before: seq<Batch>): Option<nat> {
    if initial.None? then None else if before == [] then initial else Some((initial.value + RecordsIn(before)) % TWO64)
  }

  ghost predicate Conditional(sent: seq<Batch>, initial: Option<nat>) {
    forall k | 0 <= k < |sent| :: sent[k].input.matchSeqNum == MatchAfter(initial, sent[..k])
  }

  ghost predicate TimerWell(s: State) {
    && |s.armed| == s.timerSeq
    && (s.timer ==> s.timerSeq > 0 && s.buffer != [] && s.armed[s.timerSeq - 1] == Start(s))
  }

  /** A barrier is sent only while nothing was ever dropped, and everything accepted before it is ahead of it. */
  ghost predicate BarriersCover(sent: seq<Item>, flushed: seq<Flushed>, start: nat) {
    forall j | 0 <= j < |sent| && sent[j].Barrier? ::
      && sent[j].before <= start
      && (forall k | 0 <= k < |flushed| && flushed[k].batch.first < sent[j].before ::
            flushed[k].emitted && Records(flushed[k].batch) in sent[..j])
  }

  /** What is in the channel ahead of position `j` starts before what follows, barriers included. */
  ghost predicate ItemsOrdered(sent: seq<Item>, start: nat) {
    && (forall j | 0 <= j < |sent| && sent[j].Records? :: sent[j].batch.first + Count(sent[j].batch) <= start)
    && (forall i, j | 0 <= i < j < |sent| && sent[i].Records? && sent[j].Barrier? ::
          sent[i].batch.first + Count(sent[i].batch) <= sent[j].before)
    && (forall i, j | 0 <= i < j < |sent| && sent[i].Barrier? && sent[j].Records? :: sent[i].before <= sent[j].batch.first)
    && (forall i, j | 0 <= i < j < |sent| && sent[i].Records? && sent[j].Records? ::
          sent[i].batch.first + Count(sent[i].batch) <= sent[j].batch.first)
  }

  ghost predicate Sane(o: BatchingOptions) {
    1 <= o.maxRecords <= MAX_BATCH_RECORDS && 1 <= o.maxMeteredBytes <= MAX_BATCH_METERED_BYTES
  }

  ghost predicate DropsNeedCancel(done: bool, flushed: seq<Flushed>) {
    !done ==> forall k | 0 <= k < |flushed| :: flushed[k].emitted
  }

  /** The close error is set exactly when a batch was dropped. */
  ghost predicate DropsRecorded(closeErr: Option<Err>, flushed: seq<Flushed>) {
    closeErr == if exists k :: 0 <= k < |flushed| && !flushed[k].emitted then Some(Cancelled) else None
  }

  /** Between critical sections: nothing waits without a timer, full, or behind a closed batcher. */
  ghost predicate Settled(s: State) {
    && !Full(s)
    && (s.buffer != [] && s.opts.linger > 0 ==> s.timer)
    && (s.closed ==> s.buffer == [])
    && (s.channelClosed ==> s.closed)
  }

  /** What also holds in the middle of a critical section. */
  ghost predicate Core(s: State) {
    && Sane(s.opts)
    && BufferWell(s)
    && Tiles(s.flushed, Start(s))
    && FlushedWell(s.flushed, s.opts, s.accepted, s.tickets)
    && Batches(s.sent) == Emitted(s.flushed)
    && Conditional(Batches(s.sent), s.opts.matchSeqNum) && s.nextMatch == MatchAfter(s.opts.matchSeqNum, Batches(s.sent))
    && TimerWell(s)
    && BarriersCover(s.sent, s.flushed, Start(s)) && ItemsOrdered(s.sent, Start(s))
    && DropsNeedCancel(s.done, s.flushed) && DropsRecorded(s.closeErr, s.flushed)
  }

  ghost predicate Inv(s: State) { Core(s) && Settled(s) }

  // ---- flushing ----

  lemma FlushTiles(flushed: seq<Flushed>, b: Batch, emitted: bool)
    requires Tiles(flushed, b.first)
    ensures Tiles(flushed + [Flushed(b, emitted)], b.first + Count(b))
  {
  }

  lemma NextBatchWell(s: State)
    requires BufferWell(s) && s.buffer != []
    ensures Faithful(NextBatch(s), s.accepted, s.tickets) && WithinLimits(NextBatch(s), s.opts)
  {
    assert s.accepted[Start(s)..|s.accepted|] == s.accepted[Start(s)..];
    assert s.tickets[Start(s)..|s.tickets|] == s.tickets[Start(s)..];
  }

  lemma FlushWell(s: State, emitted: bool)
    requires BufferWell(s) && s.buffer != [] && FlushedWell(s.flushed, s.opts, s.accepted, s.tickets)
    ensures FlushedWell(s.flushed + [Flushed(NextBatch(s), emitted)], s.opts, s.accepted, s.tickets)
  {
    hide Faithful, WithinLimits, BufferWell;
    NextBatchWell(s);
  }

  lemma EmittedSnoc(flushed: seq<Flushed>, f: Flushed)
    ensures Emitted(flushed + [f]) == if f.emitted then Emitted(flushed) + [f.batch] else Emitted(flushed)
  {
    assert (flushed + [f])[..|flushed|] == flushed;
  }

  lemma BatchesSnoc(items: seq<Item>, i: Item)
    ensures Batches(items + [i]) == if i.Records? then Batches(items) + [i.batch] else Batches(items)
  {
    assert (items + [i])[..|items|] == items;
  }

  lemma MatchSnoc(initial: Option<nat>, before: seq<Batch>, b: Batch)
    ensures MatchAfter(initial, before + [b]) ==
            if initial.None? then None else Some((MatchAfter(initial, before).value + Count(b)) % TWO64)
  {
    assert (before + [b])[..|before|] == before;
  }

  lemma FlushConditional(sent: seq<Batch>, initial: Option<nat>, b: Batch)
    requires Conditional(sent, initial) && b.input.matchSeqNum == MatchAfter(initial, sent)
    ensures Conditional(sent + [b], initial)
  {
    forall k | 0 <= k < |sent + [b]| ensures (sent + [b])[k].input.matchSeqNum == MatchAfter(initial, (sent + [b])[..k]) {
      assert (sent + [b])[..k] == if k < |sent| then sent[..k] else sent;
    }
  }

  lemma FlushBarriers(s: State, b: Batch, emitted: bool)
    requires BarriersCover(s.sent, s.flushed, b.first) && ItemsOrdered(s.sent, b.first)
    ensures var sent := if emitted then s.sent + [Records(b)] else s.sent;
            BarriersCover(sent, s.flushed + [Flushed(b, emitted)], b.first + Count(b)) && ItemsOrdered(sent, b.first + Count(b))
  {
    var sent := if emitted then s.sent + [Records(b)] else s.sent;
    forall j | 0 <= j < |sent| && sent[j].Barrier? ensures sent[..j] == s.sent[..j] {}
  }

  lemma FlushEmpties(s: State, drop: bool)
    requires BufferWell(s) && TimerWell(s) && s.buffer != [] && Sane(s.opts)
    ensures var t := DoFlush(s, drop);
            BufferWell(t) && TimerWell(t) && Start(t) == NextBatch(s).first + Count(NextBatch(s)) && !Full(t)
  {
  }

  lemma FlushLogs(s: State, drop: bool)
    requires Batches(s.sent) == Emitted(s.flushed) && s.buffer != []
    requires Conditional(Batches(s.sent), s.opts.matchSeqNum) && s.nextMatch == MatchAfter(s.opts.matchSeqNum, Batches(s.sent))
    ensures var t := DoFlush(s, drop);
            && Batches(t.sent) == Emitted(t.flushed)
            && Conditional(Batches(t.sent), t.opts.matchSeqNum) && t.nextMatch == MatchAfter(t.opts.matchSeqNum, Batches(t.sent))
  {
    hide Conditional, MatchAfter, Batches, Emitted;
    var b := NextBatch(s);
    EmittedSnoc(s.flushed, Flushed(b, !drop));
    BatchesSnoc(s.sent, Records(b));
    MatchSnoc(s.opts.matchSeqNum, Batches(s.sent), b);
    MatchNone(s.opts.matchSeqNum, Batches(s.sent));
    FlushConditional(Batches(s.sent), s.opts.matchSeqNum, b);
  }

  lemma MatchNone(initial: Option<nat>, before: seq<Batch>)
    ensures MatchAfter(initial, before).None? <==> initial.None?
  {
  }

  /** `DoFlush` of a buffer that is not empty, field by field. */
  lemma FlushFields(s: State, drop: bool)
    requires s.buffer != []
    ensures var t := DoFlush(s, drop);
            && t.opts == s.opts && t.accepted == s.accepted && t.tickets == s.tickets && t.closed == s.closed
            && t.channelClosed == s.channelClosed && t.buffer == [] && !t.timer
            && t.flushed == s.flushed + [Flushed(NextBatch(s), !drop)] && t.done == (s.done || drop)
            && t.closeErr == (if drop && s.closeErr.None? then Some(Cancelled) else s.closeErr)
            && t.sent == if drop then s.sent else s.sent + [Records(NextBatch(s))]
  {
  }

  lemma FlushFull(s: State, drop: bool)
    requires Core(s) && (s.channelClosed ==> s.closed) && s.buffer != []
    ensures Inv(DoFlush(s, drop))
  {
    hide BufferWell, TimerWell, FlushedWell, Tiles, Conditional, BarriersCover, ItemsOrdered, MatchAfter, Batches, Emitted, NextBatch,
      DropsRecorded, DoFlush, Full;
    FlushFields(s, drop);
    var b := NextBatch(s);
    NextBatchFirst(s);
    FlushEmpties(s, drop);
    FlushTiles(s.flushed, b, !drop);
    FlushWell(s, !drop);
    FlushLogs(s, drop);
    FlushBarriers(s, b, !drop);
    FlushRecords(s.closeErr, s.flushed, Flushed(b, !drop));
  }

  lemma FlushSettles(s: State, drop: bool)
    requires Core(s) && (s.channelClosed ==> s.closed)
    ensures Inv(DoFlush(s, drop)) && DoFlush(s, drop).buffer == []
    ensures DoFlush(s, drop).closed == s.closed && DoFlush(s, drop).channelClosed == s.channelClosed && DoFlush(s, drop).opts == s.opts
  {
    if s.buffer == [] {
      EmptySettled(s);
    } else {
      FlushFull(s, drop);
      FlushFields(s, drop);
    }
  }

  lemma FlushRecords(closeErr: Option<Err>, flushed: seq<Flushed>, f: Flushed)
    requires DropsRecorded(closeErr, flushed)
    ensures DropsRecorded(if !f.emitted && closeErr.None? then Some(Cancelled) else closeErr, flushed + [f])
  {
    var more := flushed + [f];
    if k :| 0 <= k < |flushed| && !flushed[k].emitted { assert !more[k].emitted; }
    if !f.emitted { assert !more[|flushed|].emitted; }
  }

  lemma EmptySettled(s: State)
    requires BufferWell(s) && Sane(s.opts) && s.buffer == []
    ensures !Full(s)
  {
  }

  lemma NextBatchFirst(s: State)
    ensures NextBatch(s).first == Start(s)
  {
  }

  // ---- accepting a record ----

  lemma PutFaithful(b: Batch, accepted: seq<AppendRecord>, tickets: seq<Option<nat>>, r: AppendRecord, t: Option<nat>)
    requires Faithful(b, accepted, tickets)
    ensures Faithful(b, accepted + [r], tickets + [t])
  {
    var lo, hi := b.first, b.first + Count(b);
    assert (accepted + [r])[lo..hi] == accepted[lo..hi];
    assert (tickets + [t])[lo..hi] == tickets[lo..hi];
  }

  lemma PutWell(s: State, r: AppendRecord, t: Option<nat>)
    requires FlushedWell(s.flushed, s.opts, s.accepted, s.tickets)
    ensures FlushedWell(s.flushed, s.opts, s.accepted + [r], s.tickets + [t])
  {
    hide Faithful, WithinLimits;
    forall k | 0 <= k < |s.flushed| ensures Faithful(s.flushed[k].batch, s.accepted + [r], s.tickets + [t]) {
      PutFaithful(s.flushed[k].batch, s.accepted, s.tickets, r, t);
    }
  }

  lemma PutBuffer(s: State, r: AppendRecord, t: Option<nat>)
    requires BufferWell(s) && Fits(s, RecordBytes(r)) && Sane(s.opts) && RecordBytes(r) <= s.opts.maxMeteredBytes
    ensures BufferWell(Put(s, r, t)) && Start(Put(s, r, t)) == Start(s)
  {
    var p := Put(s, r, t);
    assert p.accepted[Start(s)..] == s.accepted[Start(s)..] + [r];
    var before, after := s.tickets[Start(s)..], p.tickets[Start(s)..];
    assert after == before + [t];
    assert after[..|after| - 1] == before;
    BatchBytesAppend(s.buffer, [r]);
    assert [r][1..] == [];
  }

  lemma PutCore(s: State, r: AppendRecord, t: Option<nat>)
    requires Core(s) && Fits(s, RecordBytes(r)) && RecordBytes(r) <= s.opts.maxMeteredBytes
    ensures Core(Put(s, r, t))
  {
    hide FlushedWell, BufferWell, Tiles, Conditional, BarriersCover, ItemsOrdered, MatchAfter, Batches, Emitted, Fits, DropsNeedCancel;
    PutBuffer(s, r, t);
    PutWell(s, r, t);
  }

  lemma ArmInv(s: State)
    requires Core(s) && s.buffer != [] && !Full(s) && !s.closed && (s.channelClosed ==> s.closed)
    ensures Inv(ArmTimer(s))
  {
    hide FlushedWell, Tiles, Conditional, BarriersCover, ItemsOrdered, MatchAfter, Batches, Emitted, DropsNeedCancel;
  }

  lemma AddInv(s: State, r: AppendRecord, t: Option<nat>, dropBefore: bool, dropAfter: bool)
    requires Inv(s)
    ensures Inv(DoAdd(s, r, t, dropBefore, dropAfter))
  {
    hide Core, DoFlush, ArmTimer;
    if Accepts(s, r) {
      var s1 := if Fits(s, RecordBytes(r)) then s else DoFlush(s, dropBefore);
      FlushSettles(s, dropBefore);
      PutCore(s1, r, t);
      var s2 := Put(s1, r, t);
      if Full(s2) { FlushSettles(s2, dropAfter); } else { ArmInv(s2); }
    }
  }

  // ---- the other actions ----

  lemma {:induction false} BatchesIn(items: seq<Item>, b: Batch)
    ensures b in Batches(items) <==> Records(b) in items
    decreases |items|
  {
    if items != [] {
      var k := |items| - 1;
      assert items == items[..k] + [items[k]];
      BatchesIn(items[..k], b);
    }
  }

  lemma {:induction false} EmittedIn(flushed: seq<Flushed>, k: nat)
    requires k < |flushed| && flushed[k].emitted
    ensures flushed[k].batch in Emitted(flushed)
    decreases |flushed|
  {
    if k < |flushed| - 1 { EmittedIn(flushed[..|flushed| - 1], k); }
  }

  /** While nothing was dropped, everything flushed is in the channel. */
  lemma AllSent(s: State, k: nat)
    requires Batches(s.sent) == Emitted(s.flushed) && !s.done && DropsNeedCancel(s.done, s.flushed) && k < |s.flushed|
    ensures s.flushed[k].emitted && Records(s.flushed[k].batch) in s.sent
  {
    EmittedIn(s.flushed, k);
    BatchesIn(s.sent, s.flushed[k].batch);
  }

  lemma BarrierCovers(s: State)
    requires BarriersCover(s.sent, s.flushed, Start(s)) && s.buffer == []
    requires Batches(s.sent) == Emitted(s.flushed) && !s.done && DropsNeedCancel(s.done, s.flushed)
    ensures BarriersCover(s.sent + [Barrier(|s.accepted|)], s.flushed, Start(s))
  {
    hide Batches, Emitted, DropsNeedCancel;
    var sent := s.sent + [Barrier(|s.accepted|)];
    forall j, k | 0 <= j < |sent| && sent[j].Barrier? && 0 <= k < |s.flushed| && s.flushed[k].batch.first < sent[j].before
      ensures s.flushed[k].emitted && Records(s.flushed[k].batch) in sent[..j]
    {
      assert sent[..j] == if j < |s.sent| then s.sent[..j] else s.sent;
      AllSent(s, k);
    }
  }

  lemma BarrierOrdered(s: State)
    requires ItemsOrdered(s.sent, Start(s)) && s.buffer == []
    ensures ItemsOrdered(s.sent + [Barrier(|s.accepted|)], Start(s))
  {
  }

  lemma BarrierSent(s: State)
    requires Inv(s) && s.buffer == [] && !s.done
    ensures Inv(s.(sent := s.sent + [Barrier(|s.accepted|)]))
  {
    hide FlushedWell, Tiles, Conditional, BarriersCover, ItemsOrdered, MatchAfter, Batches, Emitted, DropsNeedCancel;
    BatchesSnoc(s.sent, Barrier(|s.accepted|));
    BarrierCovers(s);
    BarrierOrdered(s);
  }

  /** The context is cancelled, the channel closed or the timer found stopped. */
  lemma FlagsInv(s: State, done: bool, channelClosed: bool)
    requires Inv(s) && (channelClosed ==> s.closed) && (s.done ==> done)
    ensures Inv(s.(done := done, channelClosed := channelClosed))
  {
    hide FlushedWell, Tiles, Conditional, BarriersCover, ItemsOrdered, MatchAfter, Batches, Emitted;
  }

  lemma ClosedInv(s: State)
    requires Inv(s) && s.buffer == []
    ensures Inv(s.(closed := true)) && !s.timer
  {
    hide FlushedWell, Tiles, Conditional, BarriersCover, ItemsOrdered, MatchAfter, Batches, Emitted, DropsNeedCancel;
  }

  lemma BarrierInv(s: State, drop: bool, cancelled: bool)
    requires Inv(s)
    ensures Inv(DoBarrier(s, drop, cancelled))
  {
    hide Core, DoFlush;
    if !s.closed {
      FlushSettles(s, drop);
      var t := DoFlush(s, drop);
      if t.done || cancelled { FlagsInv(t, true, t.channelClosed); } else { BarrierSent(t); }
    }
  }

  lemma TimerInv(s: State, q: nat, drop: bool)
    requires Inv(s)
    ensures Inv(DoTimer(s, q, drop))
  {
    hide Core;
    if s.timer && s.timerSeq == q {
      FlushSettles(s, drop);
      TimerNeedsBuffer(s);
      assert DoTimer(s, q, drop) == DoFlush(s, drop);
    }
  }

  lemma TimerNeedsBuffer(s: State)
    requires Inv(s)
    ensures s.timer ==> s.buffer != [] && !s.closed && s.timerSeq > 0 && |s.armed| == s.timerSeq && s.armed[s.timerSeq - 1] == Start(s)
  {
  }

  lemma CloseInv(s: State, drop: bool)
    requires Inv(s)
    ensures Inv(DoClose(s, drop))
  {
    hide Core;
    if !s.closed {
      FlushSettles(s, drop);
      ClosedInv(DoFlush(s, drop));
      assert DoClose(s, drop) == DoFlush(s, drop).(closed := true);
    }
  }

  lemma StepInv(s: State, a: Action)
    requires Inv(s)
    ensures Inv(Step(s, a))
  {
    hide Core, DoFlush, DoAdd, DoBarrier, DoTimer, DoClose;
    match a
    case Add(r, t, d1, d2) => AddInv(s, r, t, d1, d2);
    case Flush(drop) => FlushSettles(s, drop);
    case FlushForBackpressure(drop) => FlushSettles(s, drop);
    case FlushBarrier(drop, cancelled) => BarrierInv(s, drop, cancelled);
    case TimerFires(q, drop) => TimerInv(s, q, drop);
    case Close(drop) => CloseInv(s, drop);
    case CloseChannel => if s.closed { FlagsInv(s, true, true); }
    case CancelContext => FlagsInv(s, true, s.channelClosed);
  }

  lemma InitInv(given: Option<BatchingOptions>)
    ensures Inv(Init(given))
  {
  }

  // ---- whole runs ----

  function Run(s: State, actions: seq<Action>): State
    decreases |actions|
  {
    if actions == [] then s else Step(Run(s, actions[..|actions| - 1]), actions[|actions| - 1])
  }

  /** `s` is a state that a batcher with the given options can get into. */
  ghost predicate Reachable(given: Option<BatchingOptions>, s: State) {
    exists actions :: s == Run(Init(given), actions)
  }

  lemma {:induction false} RunInv(s: State, actions: seq<Action>)
    requires Inv(s)
    ensures Inv(Run(s, actions)) && Run(s, actions).opts == s.opts
    decreases |actions|
  {
    hide Inv, Step;
    if actions != [] {
      RunInv(s, actions[..|actions| - 1]);
      StepInv(Run(s, actions[..|actions| - 1]), actions[|actions| - 1]);
    }
  }

  lemma ReachableInv(given: Option<BatchingOptions>, s: State)
    requires Reachable(given, s)
    ensures Inv(s) && s.opts == ApplyDefaults(given)
  {
    hide Inv, Run;
    var actions :| s == Run(Init(given), actions);
    InitInv(given);
    RunInv(Init(given), actions);
  }

  /** Flushed batches, emitted and dropped, and the buffer cut the accepted records up in order, each
      batch with the tickets of its own records. */
  lemma PartitionsAccepted(given: Option<BatchingOptions>, s: State)
    requires Reachable(given, s)
    ensures && Joined(s.flushed) + s.buffer == s.accepted
            && (forall k | 0 <= k < |s.flushed| ::
                  && s.flushed[k].batch.first == |Joined(s.flushed[..k])|
                  && Faithful(s.flushed[k].batch, s.accepted, s.tickets))
            && Batches(s.sent) == Emitted(s.flushed)
  {
    hide Tiles, FlushedWell, Reachable, Joined, Faithful, Batches, Emitted, BarriersCover, ItemsOrdered, Conditional;
    ReachableInv(given, s);
    InvFaithful(s);
    JoinedTo(s.flushed, s.accepted, s.tickets, s.opts, Start(s));
    forall k | 0 <= k < |s.flushed| ensures s.flushed[k].batch.first == |Joined(s.flushed[..k])| {
      JoinedLength(s.flushed, Start(s), k);
    }
    assert s.accepted[..Start(s)] + s.accepted[Start(s)..] == s.accepted;
  }

  lemma InvFaithful(s: State)
    requires FlushedWell(s.flushed, s.opts, s.accepted, s.tickets)
    ensures forall k | 0 <= k < |s.flushed| :: Faithful(s.flushed[k].batch, s.accepted, s.tickets) && WithinLimits(s.flushed[k].batch, s.opts)
  {
  }

  function Joined(flushed: seq<Flushed>): seq<AppendRecord> {
    if flushed == [] then []
    else Joined(flushed[..|flushed| - 1]) + flushed[|flushed| - 1].batch.input.records
  }

  lemma {:induction false} TilesPrefix(flushed: seq<Flushed>, start: nat)
    requires flushed != [] && Tiles(flushed, start)
    ensures Tiles(flushed[..|flushed| - 1], flushed[|flushed| - 1].batch.first)
  {
    var k := |flushed| - 1;
    if k > 0 { assert flushed[k - 1].batch.first + Count(flushed[k - 1].batch) == flushed[k - 1 + 1].batch.first; }
  }

  lemma {:induction false} JoinedTo(flushed: seq<Flushed>, accepted: seq<AppendRecord>, tickets: seq<Option<nat>>, opts: BatchingOptions, start: nat)
    requires Tiles(flushed, start) && FlushedWell(flushed, opts, accepted, tickets) && start <= |accepted|
    ensures Joined(flushed) == accepted[..start]
    decreases |flushed|
  {
    if flushed != [] {
      var b := flushed[|flushed| - 1].batch;
      TilesPrefix(flushed, start);
      JoinedTo(flushed[..|flushed| - 1], accepted, tickets, opts, b.first);
      assert accepted[..b.first] + accepted[b.first..start] == accepted[..start];
    }
  }

  lemma {:induction false} JoinedLength(flushed: seq<Flushed>, start: nat, k: nat)
    requires Tiles(flushed, start) && k <= |flushed|
    ensures |Joined(flushed[..k])| == if k < |flushed| then flushed[k].batch.first else start
    decreases k
  {
    if k > 0 {
      JoinedLength(flushed, start, k - 1);
      assert flushed[..k][..k - 1] == flushed[..k - 1];
      assert k < |flushed| ==> flushed[k - 1].batch.first + Count(flushed[k - 1].batch) == flushed[k - 1 + 1].batch.first;
    }
  }

  /** Every emitted batch is within the limits, so that the append input checks accept it exactly
      when the fencing token is short enough; it is conditional on the records emitted before it. */
  lemma EmitsValidBatches(given: Option<BatchingOptions>, s: State, k: nat)
    requires Reachable(given, s) && k < |Batches(s.sent)|
    ensures var bs := Batches(s.sent);
            var o := ApplyDefaults(given);
            && 1 <= Count(bs[k]) <= o.maxRecords && BatchBytes(bs[k].input.records) <= o.maxMeteredBytes
            && (ValidInput(bs[k].input) <==> o.fencingToken.Some? ==> |o.fencingToken.value| <= MAX_FENCING_TOKEN_LENGTH)
            && bs[k].input.matchSeqNum == MatchAfter(o.matchSeqNum, bs[..k])
  {
    hide Tiles, FlushedWell, Reachable, Faithful, Batches, Emitted, BarriersCover, ItemsOrdered, MatchAfter, BatchBytes;
    ReachableInv(given, s);
    InvFaithful(s);
    EmittedFrom(s.flushed, k);
  }

  lemma {:induction false} EmittedFrom(flushed: seq<Flushed>, k: nat)
    requires k < |Emitted(flushed)|
    ensures exists i :: 0 <= i < |flushed| && flushed[i].batch == Emitted(flushed)[k]
    decreases |flushed|
  {
    var n := |flushed| - 1;
    if k < |Emitted(flushed[..n])| {
      EmittedFrom(flushed[..n], k);
      var i :| 0 <= i < n && flushed[..n][i].batch == Emitted(flushed[..n])[k];
      assert flushed[i].batch == Emitted(flushed)[k];
    }
  }

  /** A timer flushes nothing but the buffer it was set for. */
  lemma StaleTimersDoNothing(given: Option<BatchingOptions>, s: State, q: nat, drop: bool)
    requires Reachable(given, s)
    ensures var t := DoTimer(s, q, drop);
            && (!(1 <= q <= |s.armed|) || s.armed[q - 1] != Start(s) ==> t == s)
            && (q != s.timerSeq ==> t == s)
            && (t != s ==> t.flushed == s.flushed + [Flushed(NextBatch(s), !drop)] && NextBatch(s).first == s.armed[q - 1])
  {
    hide Core, Reachable;
    ReachableInv(given, s);
    TimerNeedsBuffer(s);
  }

  /** With a positive linger, records never wait without a timer; full buffers do not wait. */
  lemma NothingIsLeftBehind(given: Option<BatchingOptions>, s: State)
    requires Reachable(given, s)
    ensures && (s.buffer != [] && s.opts.linger > 0 ==> s.timer)
            && |s.buffer| < s.opts.maxRecords && BatchBytes(s.buffer) < s.opts.maxMeteredBytes
  {
    hide Tiles, FlushedWell, Reachable, Batches, Emitted, BarriersCover, ItemsOrdered, MatchAfter, BatchBytes;
    ReachableInv(given, s);
  }

  /** Once closed, no step adds a record or sends anything: the channel can be closed. */
  lemma NothingAfterClose(given: Option<BatchingOptions>, s: State, a: Action)
    requires Reachable(given, s) && s.closed
    ensures Step(s, a).sent == s.sent && Step(s, a).accepted == s.accepted && Step(s, a).flushed == s.flushed && s.buffer == []
  {
    hide Core, Reachable;
    ReachableInv(given, s);
    TimerNeedsBuffer(s);
  }

  /** A barrier in the channel stands behind every batch with records accepted before it, and none
      of those records was dropped. */
  lemma BarrierFollowsItsRecords(given: Option<BatchingOptions>, s: State, j: nat, k: nat)
    requires Reachable(given, s) && j < |s.sent| && s.sent[j].Barrier? && k < s.sent[j].before
    ensures exists i :: 0 <= i < j && s.sent[i].Records? && s.sent[i].batch.first <= k < s.sent[i].batch.first + Count(s.sent[i].batch)
  {
    hide FlushedWell, Reachable, Batches, Emitted, ItemsOrdered, MatchAfter, BufferWell, Conditional;
    ReachableInv(given, s);
    var f := TileAt(s.flushed, Start(s), k);
    var i :| 0 <= i < j && s.sent[..j][i] == Records(s.flushed[f].batch);
    assert s.sent[i] == Records(s.flushed[f].batch);
  }

  lemma {:induction false} TileAt(flushed: seq<Flushed>, start: nat, k: nat) returns (f: nat)
    requires Tiles(flushed, start) && k < start
    ensures f < |flushed| && flushed[f].batch.first <= k < flushed[f].batch.first + Count(flushed[f].batch)
    decreases |flushed|
  {
    f := |flushed| - 1;
    if k < flushed[f].batch.first {
      TilesPrefix(flushed, start);
      f := TileAt(flushed[..|flushed| - 1], flushed[f].batch.first, k);
    }
  }
}
