/** The batcher object (s2/batcher.go): every method takes the state machine's step, and fails the
    tickets of what it drops. The flags named after cancellation say which side of a select won. */
module Batchers {
  import opened Options
  import opened Errors
  import opened Records
  import opened Batching
  import opened Tickets
  import Producing

  /** An S2Error with a message only: no code, status or origin. */
  const TOO_LARGE: Err := Api(S2Error(Unlisted(""), 0, NoOrigin))

  class Batcher {
    const opts: BatchingOptions
    const book: TicketBook
    var buffer: seq<AppendRecord>
    var bufferBytes: nat
    var meta: seq<Meta>
    var timer: bool
    var timerSeq: nat
    var closed: bool
    var closeErr: Option<Err>
    var nextMatch: Option<nat>
    var done: bool
    var channelClosed: bool
    var sent: seq<Item>
    // history
    var accepted: seq<AppendRecord>
    var tickets: seq<Option<nat>>
    var flushed: seq<Flushed>
    var armed: seq<nat>

    constructor (given: Option<BatchingOptions>, book: TicketBook)
      ensures Abs() == Init(given) && Valid() && this.book == book
    {
      this.book := book;
      opts := ApplyDefaults(given);
      buffer, bufferBytes, meta, timer, timerSeq := [], 0, [], false, 0;
      closed, closeErr, nextMatch := false, None, ApplyDefaults(given).matchSeqNum;
      done, channelClosed, sent := false, false, [];
      accepted, tickets, flushed, armed := [], [], [], [];
      new;
      InitInv(given);
    }

    ghost function Abs(): (s: State)
      reads this
      ensures s.buffer == buffer && s.bufferBytes == bufferBytes && s.meta == meta && s.closed == closed && s.done == done
      ensures s.opts == opts && s.timer == timer && s.timerSeq == timerSeq && s.closeErr == closeErr
      ensures s.sent == sent && s.accepted == accepted && s.channelClosed == channelClosed && s.flushed == flushed
    {
      State(opts, buffer, bufferBytes, meta, timer, timerSeq, closed, closeErr, nextMatch, done, channelClosed,
            sent, accepted, tickets, flushed, armed)
    }

    ghost predicate Valid()
      reads this
      ensures Valid() <==> Inv(Abs())
    {
      Inv(Abs())
    }

    method TakeBuffer() returns (batch: Batch)
      modifies this
      ensures batch == NextBatch(old(Abs()))
      ensures Abs() == old(Abs()).(buffer := [], bufferBytes := 0, meta := [], timer := false)
    {
      var first := if |buffer| <= |accepted| then |accepted| - |buffer| else 0;
      batch := Batch(first, AppendInput(buffer, nextMatch, opts.fencingToken), meta);
      buffer, bufferBytes, meta, timer := [], 0, [], false;
    }

    method DropBatch(batch: Batch)
      modifies this, book, book.capacity
      ensures var s := old(Abs());
              Abs() == s.(flushed := s.flushed + [Flushed(batch, false)], done := true,
                          closeErr := if s.closeErr.None? then Some(Cancelled) else s.closeErr)
      ensures book.Abs() == ResolveBook(old(book.Abs()), batch, Producing.Lost(Cancelled))
    {
      hide ResolveBook;
      flushed, done := flushed + [Flushed(batch, false)], true;
      if closeErr.None? { closeErr := Some(Cancelled); }
      book.ResolveBatch(batch, Producing.Lost(Cancelled));
    }

    method SendBatch(batch: Batch)
      modifies this
      ensures var s := old(Abs());
              Abs() == s.(flushed := s.flushed + [Flushed(batch, true)], sent := s.sent + [Records(batch)],
                          nextMatch := if s.nextMatch.Some? then Some((s.nextMatch.value + |batch.input.records|) % TWO64) else None)
    {
      flushed, sent := flushed + [Flushed(batch, true)], sent + [Records(batch)];
      if nextMatch.Some? { nextMatch := Some((nextMatch.value + |batch.input.records|) % TWO64); }
    }

    /** `flushLocked` */
    method FlushLocked(cancelledFirst: bool) returns (err: Option<Err>)
      modifies this, book, book.capacity
      ensures Abs() == DoFlush(old(Abs()), cancelledFirst) && closed == old(closed) && accepted == old(accepted)
      ensures book.Abs() == BookFlush(old(Abs()), old(book.Abs()), cancelledFirst)
      ensures err == if cancelledFirst && old(buffer) != [] then Some(Cancelled) else None
    {
      hide Abs, ResolveBook, TicketBook.Abs;
      if |buffer| == 0 { return None; }
      var batch := TakeBuffer();
      if cancelledFirst {
        DropBatch(batch);
        return Some(Cancelled);
      }
      SendBatch(batch);
      return None;
    }

    method Store(record: AppendRecord, bytes: nat, ticket: Option<nat>)
      requires bytes == RecordBytes(record)
      modifies this
      ensures Abs() == Put(old(Abs()), record, ticket)
    {
      hide RecordBytes;
      if ticket.Some? { meta := meta + [Meta(|buffer|, ticket.value)]; }
      buffer, bufferBytes := buffer + [record], bufferBytes + bytes;
      accepted, tickets := accepted + [record], tickets + [ticket];
    }

    method PutRecord(record: AppendRecord, bytes: nat, tracked: bool)
      requires bytes == RecordBytes(record)
      modifies this, book
      ensures Abs() == Put(old(Abs()), record, if tracked then Some(|old(book.permits)|) else None)
      ensures book.Abs() == if tracked then BookPut(old(book.Abs()), record) else old(book.Abs())
    {
      hide Abs, Put, BookPut, RecordBytes;
      Store(record, bytes, if tracked then Some(|book.permits|) else None);
      if tracked { book.Open(record, bytes); }
    }

    method StartTimer()
      modifies this
      ensures Abs() == ArmTimer(old(Abs()))
    {
      if opts.linger > 0 && !timer {
        armed := armed + [if |buffer| <= |accepted| then |accepted| - |buffer| else 0];
        timer, timerSeq := true, timerSeq + 1;
      }
    }

    method MakeRoom(bytes: nat, cancelledFirst: bool)
      modifies this, book, book.capacity
      ensures Abs() == if Fits(old(Abs()), bytes) then old(Abs()) else DoFlush(old(Abs()), cancelledFirst)
      ensures book.Abs() == if Fits(old(Abs()), bytes) then old(book.Abs()) else BookFlush(old(Abs()), old(book.Abs()), cancelledFirst)
    {
      hide Abs, DoFlush, BookFlush, TicketBook.Abs;
      if |buffer| > 0 && (|buffer| + 1 > opts.maxRecords || bufferBytes + bytes > opts.maxMeteredBytes) {
        var _ := FlushLocked(cancelledFirst);
      }
    }

    method FlushOrWait(cancelledFirst: bool)
      modifies this, book, book.capacity
      ensures Abs() == if Full(old(Abs())) then DoFlush(old(Abs()), cancelledFirst) else ArmTimer(old(Abs()))
      ensures book.Abs() == if Full(old(Abs())) then BookFlush(old(Abs()), old(book.Abs()), cancelledFirst) else old(book.Abs())
    {
      hide Abs, DoFlush, ArmTimer, BookFlush;
      if |buffer| >= opts.maxRecords || bufferBytes >= opts.maxMeteredBytes {
        var _ := FlushLocked(cancelledFirst);
      } else {
        StartTimer();
      }
    }

    /** The record goes into the buffer: room is made before, and a full buffer leaves after. */
    method Accept(record: AppendRecord, bytes: nat, tracked: bool, cancelledBefore: bool, cancelledAfter: bool)
      requires bytes == RecordBytes(record) && Accepts(Abs(), record)
      modifies this, book, book.capacity
      ensures Abs() == DoAdd(old(Abs()), record, if tracked then Some(|old(book.permits)|) else None, cancelledBefore, cancelledAfter)
      ensures book.Abs() == BookAdd(old(Abs()), old(book.Abs()), record, tracked, cancelledBefore, cancelledAfter)
    {
      hide Abs, DoFlush, Put, ArmTimer, RecordBytes, Fits, Full, BookFlush, BookPut, TicketBook.Abs;
      MakeRoom(bytes, cancelledBefore);
      PutRecord(record, bytes, tracked);
      FlushOrWait(cancelledAfter);
    }

    method AddWithPermit(record: AppendRecord, tracked: bool, cancelledBefore: bool, cancelledAfter: bool) returns (err: Option<Err>)
      requires Valid()
      modifies this, book, book.capacity
      ensures Valid()
      ensures Abs() == DoAdd(old(Abs()), record, if tracked then Some(|old(book.permits)|) else None, cancelledBefore, cancelledAfter)
      ensures book.Abs() == BookAdd(old(Abs()), old(book.Abs()), record, tracked, cancelledBefore, cancelledAfter)
      ensures err == if old(closed) then Some(SessionClosed)
                     else if RecordBytes(record) > opts.maxMeteredBytes then Some(TOO_LARGE) else None
    {
      hide Inv, Abs, DoAdd, BookAdd, RecordBytes;
      AddInv(Abs(), record, if tracked then Some(|book.permits|) else None, cancelledBefore, cancelledAfter);
      if !Accepts(Abs(), record) { AddRefused(Abs(), book.Abs(), record, tracked, cancelledBefore, cancelledAfter); }
      if closed { return Some(SessionClosed); }
      var recordBytes := MeterRecord(record.headers, record.body);
      MeteredIs(record);
      if recordBytes > opts.maxMeteredBytes { return Some(TOO_LARGE); }
      Accept(record, recordBytes, tracked, cancelledBefore, cancelledAfter);
      return None;
    }

    method FlushForBackpressure(cancelledFirst: bool) returns (err: Option<Err>)
      requires Valid()
      modifies this, book, book.capacity
      ensures Valid() && accepted == old(accepted)
      ensures Abs() == if old(closed) then old(Abs()) else DoFlush(old(Abs()), cancelledFirst)
      ensures book.Abs() == if old(closed) then old(book.Abs()) else BookFlush(old(Abs()), old(book.Abs()), cancelledFirst)
      ensures err == if old(closed) then Some(SessionClosed) else if cancelledFirst && old(buffer) != [] then Some(Cancelled) else None
    {
      hide Inv, Abs, DoFlush, BookFlush;
      StepInv(Abs(), Action.FlushForBackpressure(cancelledFirst));
      if closed { return Some(SessionClosed); }
      err := FlushLocked(cancelledFirst);
    }

    method FlushBarrier(cancelledFirst: bool, cancelledAfter: bool) returns (err: Option<Err>)
      requires Valid()
      modifies this, book, book.capacity
      ensures Valid() && Abs() == DoBarrier(old(Abs()), cancelledFirst, cancelledAfter) && accepted == old(accepted)
      ensures book.Abs() == if old(closed) then old(book.Abs()) else BookFlush(old(Abs()), old(book.Abs()), cancelledFirst)
      ensures err.None? <==> sent != [] && sent[|sent| - 1] == Barrier(|accepted|) && |sent| > |old(sent)| && !done
      ensures err.Some? ==> err.value == if old(closed) then SessionClosed else Cancelled
      ensures err == Some(Cancelled) ==> done
    {
      hide Inv, Abs, BookFlush, DoFlush;
      BarrierInv(Abs(), cancelledFirst, cancelledAfter);
      if buffer != [] { FlushFields(Abs(), cancelledFirst); } else { FlushOfNothing(Abs(), cancelledFirst); }
      if closed { return Some(SessionClosed); }
      err := FlushLocked(cancelledFirst);
      if err.Some? { return; }
      if done { return Some(Cancelled); }
      if cancelledAfter {
        EndContext();
        return Some(Cancelled);
      }
      SendBarrier();
    }

    method SendBarrier()
      modifies this
      ensures Abs() == old(Abs()).(sent := old(sent) + [Barrier(|old(accepted)|)])
    {
      sent := sent + [Barrier(|accepted|)];
    }

    method EndContext()
      modifies this
      ensures Abs() == old(Abs()).(done := true)
    {
      done := true;
    }

    method StopTimer()
      modifies this
      ensures Abs() == old(Abs()).(timer := false)
    {
      timer := false;
    }

    method Seal()
      modifies this
      ensures Abs() == old(Abs()).(closed := true)
    {
      closed := true;
    }

    method FlushFromTimer(seqNum: nat, cancelledFirst: bool)
      requires Valid()
      modifies this, book, book.capacity
      ensures Valid() && Abs() == DoTimer(old(Abs()), seqNum, cancelledFirst)
      ensures book.Abs() == if old(timer) && old(timerSeq) == seqNum then BookFlush(old(Abs()), old(book.Abs()), cancelledFirst) else old(book.Abs())
    {
      hide Inv, Abs, DoFlush, BookFlush, TicketBook.Abs;
      TimerInv(Abs(), seqNum, cancelledFirst);
      TimerNeedsBuffer(Abs());
      BookIgnoresFlags(Abs(), book.Abs(), cancelledFirst);
      if !timer || timerSeq != seqNum { return; }
      StopTimer();
      if !closed { var _ := FlushLocked(cancelledFirst); }
    }

    /** The locked part of `close`. */
    method SealAndFlush(cancelledFirst: bool)
      requires Valid() && !closed
      modifies this, book, book.capacity
      ensures Valid() && Abs() == DoClose(old(Abs()), cancelledFirst) && closed
      ensures book.Abs() == BookFlush(old(Abs()), old(book.Abs()), cancelledFirst)
    {
      hide Inv, Abs, DoFlush, BookFlush, TicketBook.Abs;
      CloseInv(Abs(), cancelledFirst);
      BookIgnoresFlags(Abs(), book.Abs(), cancelledFirst);
      Seal();
      var _ := FlushLocked(cancelledFirst);
      StopTimer();
    }

    /** `close`: seal, flush, then cancel the context and close the channel. */
    method CloseBatcher(cancelledFirst: bool) returns (err: Option<Err>)
      requires Valid()
      modifies this, book, book.capacity
      ensures Valid() && err == closeErr && closed
      ensures Abs() == if old(closed) then old(Abs()) else DoClose(old(Abs()), cancelledFirst).(done := true, channelClosed := true)
      ensures book.Abs() == if old(closed) then old(book.Abs()) else BookFlush(old(Abs()), old(book.Abs()), cancelledFirst)
    {
      hide Inv, DoClose, BookFlush;
      if closed { return closeErr; }
      SealAndFlush(cancelledFirst);
      FlagsInv(Abs(), true, true);
      done, channelClosed := true, true;
      return closeErr;
    }

    /** Why the batcher shut down. A caller told that it closed knows that every record accepted before
        went out; one told of cancellation knows that a batch was dropped, or that the context ended
        before anyone closed the batcher. */
    method ShutdownCause() returns (err: Err)
      requires Valid()
      ensures err == SessionClosed || err == Cancelled
      ensures err == SessionClosed ==> forall k | 0 <= k < |flushed| :: flushed[k].emitted
      ensures err == Cancelled ==> done && (!closed || exists k :: 0 <= k < |flushed| && !flushed[k].emitted)
    {
      DropsKnown(Abs());
      hide Inv;
      if closeErr.Some? { return closeErr.value; }
      if closed { return SessionClosed; }
      if done { return Cancelled; }
      return SessionClosed;
    }
  }

  lemma DropsKnown(s: State)
    requires Inv(s)
    ensures s.closeErr == if exists k :: 0 <= k < |s.flushed| && !s.flushed[k].emitted then Some(Cancelled) else None
    ensures s.closeErr.Some? ==> s.done
  {
    hide FlushedWell, Tiles, Conditional, BarriersCover, ItemsOrdered, MatchAfter, Batches, Emitted;
  }

  lemma FlushOfNothing(s: State, drop: bool)
    requires s.buffer == []
    ensures DoFlush(s, drop) == s
  {
  }

  lemma BookIgnoresFlags(s: State, k: Book, drop: bool)
    ensures BookFlush(s.(closed := true), k, drop) == BookFlush(s, k, drop) == BookFlush(s.(timer := false), k, drop)
  {
    hide ResolveBook;
  }

  lemma AddRefused(s: State, k: Book, record: AppendRecord, tracked: bool, dropBefore: bool, dropAfter: bool)
    requires !Accepts(s, record)
    ensures DoAdd(s, record, if tracked then Some(|k.permits|) else None, dropBefore, dropAfter) == s
    ensures BookAdd(s, k, record, tracked, dropBefore, dropAfter) == k
  {
  }

  lemma MeteredIs(r: AppendRecord)
    ensures RecordBytes(r) == Metered(r.headers, r.body)
  {
  }
}
