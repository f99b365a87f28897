/** When records leave a batcher and when they wait: each action's effect from conditions on the state
    before, whatever the code that decides. */
module BatchDecisions {
  import opened Options
  import opened Errors
  import opened Records
  import opened Batching

  /** The batch that left last. */
  function LastOut(t: State): Batch
    requires t.flushed != []
  {
    t.flushed[|t.flushed| - 1].batch
  }

  /** Nothing waits any more, and no timer is set: what was in the buffer left as one batch, sent to the
      channel or, when the context had ended, recorded as dropped. */
  ghost predicate LeftWhole(s: State, t: State, drop: bool) {
    && t.buffer == [] && t.bufferBytes == 0 && t.meta == [] && !t.timer && t.accepted == s.accepted && t.tickets == s.tickets
    && (s.buffer == [] ==> t.sent == s.sent && t.flushed == s.flushed && t.done == s.done && t.closeErr == s.closeErr)
    && (s.buffer != [] ==>
          && |t.flushed| == |s.flushed| + 1 && t.flushed[..|s.flushed|] == s.flushed
          && LastOut(t).input.records == s.buffer && LastOut(t).meta == s.meta && LastOut(t).first == |s.accepted| - |s.buffer|
          && t.flushed[|s.flushed|].emitted == !drop
          && (if drop then t.sent == s.sent && t.done && t.closeErr == Some(Cancelled)
              else t.sent == s.sent + [Records(LastOut(t))] && t.done == s.done && t.closeErr == s.closeErr))
  }

  lemma FlushLeaves(s: State, drop: bool)
    requires Core(s)
    ensures LeftWhole(s, DoFlush(s, drop), drop)
  {
    hide Tiles, FlushedWell, Conditional, BarriersCover, ItemsOrdered, MatchAfter, Batches, Emitted, DropsNeedCancel;
    var t := DoFlush(s, drop);
    if s.buffer == [] { assert s.tickets[Start(s)..] == []; }
    assert t.flushed[..|s.flushed|] == s.flushed;
  }

  lemma ReachableCore(given: Option<BatchingOptions>, s: State)
    requires Reachable(given, s)
    ensures Core(s) && (s.timer ==> s.buffer != []) && (s.closed ==> s.buffer == [] && !s.timer)
    ensures s.bufferBytes == BatchBytes(s.buffer)
  {
    hide Tiles, FlushedWell, Conditional, BarriersCover, ItemsOrdered, MatchAfter, Batches, Emitted, BatchBytes, MetaOf, Reachable;
    ReachableInv(given, s);
  }

  /** The timer that is set flushes what it was set for. */
  lemma TimerFlushes(given: Option<BatchingOptions>, s: State, drop: bool)
    requires Reachable(given, s) && s.timer
    ensures s.buffer != [] && LeftWhole(s, Step(s, TimerFires(s.timerSeq, drop)), drop)
  {
    hide Core, Reachable, BatchBytes, DoFlush;
    ReachableCore(given, s);
    FlushLeaves(s, drop);
    ClearedTimer(s, drop);
  }

  lemma ClearedTimer(s: State, drop: bool)
    requires s.buffer != []
    ensures DoFlush(s.(timer := false), drop) == DoFlush(s, drop)
  {
  }

  /** So does a demand, a demand for room while the batcher is open, and closing it. */
  lemma DemandFlushes(given: Option<BatchingOptions>, s: State, drop: bool)
    requires Reachable(given, s)
    ensures LeftWhole(s, Step(s, Flush(drop)), drop)
    ensures !s.closed ==> LeftWhole(s, Step(s, FlushForBackpressure(drop)), drop)
    ensures !s.closed ==> LeftWhole(s, Step(s, Close(drop)), drop) && Step(s, Close(drop)).closed
  {
    hide Core, Reachable, BatchBytes, DoFlush, LeftWhole;
    ReachableCore(given, s);
    FlushLeaves(s, drop);
    SealedFlush(s, drop);
  }

  lemma SealedFlush(s: State, drop: bool)
    requires LeftWhole(s, DoFlush(s, drop), drop)
    ensures LeftWhole(s, DoFlush(s.(closed := true), drop).(timer := false), drop) && DoFlush(s.(closed := true), drop).closed
  {
  }

  /** A barrier goes out behind what was waiting exactly when the batcher is open, nothing is dropped and
      the context has not ended. */
  lemma BarrierDecides(given: Option<BatchingOptions>, s: State, drop: bool, cancelled: bool)
    requires Reachable(given, s)
    ensures var t := Step(s, FlushBarrier(drop, cancelled));
            var dropped := drop && s.buffer != [];
            && (s.closed ==> t == s)
            && (!s.closed && (dropped || s.done || cancelled) ==> t.done && LeftWhole(s, t.(done := s.done || dropped), drop))
            && (!s.closed && !dropped && !s.done && !cancelled ==>
                  && |t.sent| > 0 && t.sent[|t.sent| - 1] == Barrier(|s.accepted|)
                  && LeftWhole(s, t.(sent := t.sent[..|t.sent| - 1]), drop))
  {
    hide Core, Reachable, BatchBytes, DoFlush;
    ReachableCore(given, s);
    FlushLeaves(s, drop);
    var u := DoFlush(s, drop);
    assert (u.sent + [Barrier(|u.accepted|)])[..|u.sent|] == u.sent;
  }

  /** Only closing lets the channel be closed, which ends the context as cancelling does. */
  lemma EndDecides(s: State)
    ensures Step(s, CloseChannel) == (if s.closed then s.(done := true, channelClosed := true) else s)
    ensures Step(s, CancelContext) == s.(done := true)
  {
  }

  /** Whether a record of `n` bytes goes into the batch that is waiting. */
  predicate Joins(s: State, n: nat) {
    s.buffer == [] || (|s.buffer| < s.opts.maxRecords && BatchBytes(s.buffer) + n <= s.opts.maxMeteredBytes)
  }

  /** A record is accepted exactly by an open batcher and within the byte limit. What waits is sent ahead
      of it exactly when it does not fit in; its batch leaves at once exactly when that fills it, and
      otherwise waits, with a timer if there is a linger time. A timer already set stays as it was. */
  lemma AddDecides(given: Option<BatchingOptions>, s: State, record: AppendRecord, ticket: Option<nat>, d1: bool, d2: bool)
    requires Reachable(given, s)
    ensures var t := Step(s, Add(record, ticket, d1, d2));
            var n := RecordBytes(record);
            var joins := Joins(s, n);
            var batch := (if joins then s.buffer else []) + [record];
            var fills := |batch| >= s.opts.maxRecords || BatchBytes(batch) >= s.opts.maxMeteredBytes;
            if s.closed || n > s.opts.maxMeteredBytes then t == s
            else
              && t.accepted == s.accepted + [record] && t.tickets == s.tickets + [ticket]
              && t.buffer == (if fills then [] else batch)
              && |t.flushed| == |s.flushed| + (if joins then 0 else 1) + (if fills then 1 else 0) && s.flushed <= t.flushed
              && (!joins ==> t.flushed[|s.flushed|].batch.input.records == s.buffer && t.flushed[|s.flushed|].emitted == !d1)
              && (fills ==> LastOut(t).input.records == batch && t.flushed[|t.flushed| - 1].emitted == !d2)
              && (!fills && s.opts.linger > 0 ==> t.timer && (s.timer && joins ==> t.timerSeq == s.timerSeq))
              && (fills ==> !t.timer)
  {
    hide Core, Reachable, RecordBytes, DoFlush, Put, ArmTimer, Full;
    ReachableCore(given, s);
    BatchBytesAppend(s.buffer, [record]);
    OneRecord(record);
    assert [] + [record] == [record];
    hide BatchBytes;
    if !s.closed && RecordBytes(record) <= s.opts.maxMeteredBytes {
      var s1 := if Fits(s, RecordBytes(record)) then s else DoFlush(s, d1);
      if !Fits(s, RecordBytes(record)) { FlushLeaves(s, d1); }
      AddedTo(s1, record, ticket, d2);
      PutIs(s1, record, ticket);
    }
  }

  lemma PutIs(s: State, record: AppendRecord, ticket: Option<nat>)
    ensures Full(Put(s, record, ticket)) <==>
              |s.buffer| + 1 >= s.opts.maxRecords || s.bufferBytes + RecordBytes(record) >= s.opts.maxMeteredBytes
  {
    hide RecordBytes;
  }

  lemma OneRecord(r: AppendRecord)
    ensures BatchBytes([r]) == RecordBytes(r) && BatchBytes([]) == 0
  {
    assert [r][1..] == [];
  }

  /** The second half of an addition. */
  lemma AddedTo(s: State, record: AppendRecord, ticket: Option<nat>, drop: bool)
    ensures var s2 := Put(s, record, ticket);
            var t := if Full(s2) then DoFlush(s2, drop) else ArmTimer(s2);
            && t.accepted == s.accepted + [record] && t.tickets == s.tickets + [ticket] && s.flushed <= t.flushed
            && t.buffer == (if Full(s2) then [] else s.buffer + [record])
            && (Full(s2) ==> |t.flushed| == |s.flushed| + 1 && !t.timer
                             && t.flushed[|s.flushed|].batch.input.records == s.buffer + [record] && t.flushed[|s.flushed|].emitted == !drop)
            && (!Full(s2) ==> t.flushed == s.flushed && (s.timer ==> t.timer && t.timerSeq == s.timerSeq) && (s.opts.linger > 0 ==> t.timer))
  {
    hide RecordBytes, Start;
  }
}
