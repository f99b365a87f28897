/** Permits and result channels of the records a producer has accepted, shared by the batcher, which
    fails the tickets of a batch it drops, and by the producer, which resolves all others
    (s2/batcher.go, s2/producer.go). */
module Tickets {
  import opened Options
  import opened Errors
  import opened Records
  import opened Capacity
  import opened Producing
  import B = Batching

  datatype Book = Book(cap: Tracker, permits: seq<int>, outcomes: seq<seq<Outcome>>, fate: map<nat, Fate>)

  function BookOf(s: State): Book { Book(s.cap, s.permits, s.outcomes, s.fate) }

  function WithBook(s: State, k: Book): State {
    s.(cap := k.cap, permits := k.permits, outcomes := k.outcomes, fate := k.fate)
  }

  function ResolveBook(k: Book, batch: Batch, v: Verdict): (r: Book)
    ensures |r.permits| == |k.permits|
  {
    var n := TotalTaken(k.permits, batch.meta);
    Book(if n > 0 then Release(k.cap, n) else k.cap, AfterTake(k.permits, batch.meta), AfterResolve(k.outcomes, batch.meta, v),
         k.fate[batch.first := Done(v)])
  }

  /** A flush that loses to cancellation fails the tickets of its batch. */
  function BookFlush(b: B.State, k: Book, drop: bool): (r: Book)
    ensures |r.permits| == |k.permits|
  {
    if drop && b.buffer != [] then ResolveBook(k, B.NextBatch(b), Lost(Cancelled)) else k
  }

  function BookPut(k: Book, record: AppendRecord): Book {
    k.(permits := k.permits + [RecordBytes(record)], outcomes := k.outcomes + [[]])
  }

  /** What `addWithPermit` does to the tickets, alongside `B.DoAdd`. */
  function BookAdd(b: B.State, k: Book, record: AppendRecord, tracked: bool, dropBefore: bool, dropAfter: bool): Book {
    if !B.Accepts(b, record) then k
    else
      var fits := B.Fits(b, RecordBytes(record));
      var b1 := if fits then b else B.DoFlush(b, dropBefore);
      var k1 := if fits then k else BookFlush(b, k, dropBefore);
      var b2 := B.Put(b1, record, if tracked then Some(|k.permits|) else None);
      var k2 := if tracked then BookPut(k1, record) else k1;
      if B.Full(b2) then BookFlush(b2, k2, dropAfter) else k2
  }

  // ---- the producer's functions, split into batcher, tickets and the rest ----

  lemma ResolveSplits(s: State, batch: Batch, v: Verdict)
    ensures Resolve(s, batch, v) == WithBook(s, ResolveBook(BookOf(s), batch, v))
  {
    hide TotalTaken, AfterTake, AfterResolve, Release;
  }

  lemma FlushSplits(s: State, drop: bool)
    ensures Flush(s, drop) == WithBook(s.(b := B.DoFlush(s.b, drop)), BookFlush(s.b, BookOf(s), drop))
  {
    hide Resolve, ResolveBook, B.DoFlush;
    if s.b.buffer != [] && drop { ResolveSplits(s.(b := B.DoFlush(s.b, drop)), B.NextBatch(s.b), Lost(Cancelled)); }
  }

  lemma AddSplits(s: State, record: AppendRecord, dropBefore: bool, dropAfter: bool)
    requires |s.permits| == |s.b.accepted| && B.Accepts(s.b, record)
    ensures Add(s, record, dropBefore, dropAfter) ==
            WithBook(s.(b := B.DoAdd(s.b, record, Some(|s.permits|), dropBefore, dropAfter), submission := Free),
                     BookAdd(s.b, BookOf(s), record, true, dropBefore, dropAfter))
  {
    hide Flush, B.DoFlush, BookFlush, B.ArmTimer, B.Full, B.Fits, RecordBytes, B.Put;
    FlushSplits(s, dropBefore);
    FlushAccepts(s.b, dropBefore);
    var s1 := if B.Fits(s.b, RecordBytes(record)) then s else Flush(s, dropBefore);
    FlushSplits(Put(s1, record), dropAfter);
  }

  lemma FlushAccepts(b: B.State, drop: bool)
    ensures B.DoFlush(b, drop).accepted == b.accepted
  {
  }

  // ---- the shared object ----

  class TicketBook {
    const capacity: CapacityTracker
    var permits: seq<int>
    var outcomes: seq<seq<Outcome>>
    ghost var fate: map<nat, Fate>

    constructor (maxInflightBytes: nat)
      ensures fresh(capacity) && Abs() == Book(Tracker(maxInflightBytes, 0, 0, 0, false), [], [], map[])
    {
      capacity := new CapacityTracker(maxInflightBytes, 0);
      permits, outcomes, fate := [], [], map[];
    }

    ghost function Abs(): (k: Book)
      reads this, capacity
      ensures k == Book(capacity.State(), permits, outcomes, fate)
    {
      Book(capacity.State(), permits, outcomes, fate)
    }

    /** The ticket and the permit of a record that is about to be buffered. */
    method Open(record: AppendRecord, bytes: nat)
      requires bytes == RecordBytes(record)
      modifies this
      ensures Abs() == BookPut(old(Abs()), record)
    {
      permits, outcomes := permits + [bytes], outcomes + [[]];
    }

    method TakePermits(meta: seq<B.Meta>) returns (bytes: int)
      modifies this`permits
      ensures bytes == TotalTaken(old(permits), meta) && permits == AfterTake(old(permits), meta)
    {
      bytes := 0;
      for i := 0 to |meta|
        invariant bytes == TotalTaken(old(permits), meta[..i]) && permits == AfterTake(old(permits), meta[..i])
      {
        assert meta[..i + 1][..i] == meta[..i];
        var t := meta[i].ticket;
        if t < |permits| {
          bytes := bytes + permits[t];
          permits := permits[t := 0];
        }
      }
      assert meta[..|meta|] == meta;
    }

    method ResolveTickets(meta: seq<B.Meta>, v: Verdict)
      modifies this`outcomes
      ensures outcomes == AfterResolve(old(outcomes), meta, v)
    {
      for i := 0 to |meta|
        invariant outcomes == AfterResolve(old(outcomes), meta[..i], v)
      {
        assert meta[..i + 1][..i] == meta[..i];
        var m := meta[i];
        if m.ticket < |outcomes| { outcomes := outcomes[m.ticket := outcomes[m.ticket] + [OutcomeOf(v, m.index)]]; }
      }
      assert meta[..|meta|] == meta;
    }

    /** The capacity of a batch goes back in one release, then its tickets are resolved. */
    method ResolveBatch(batch: Batch, v: Verdict)
      modifies this, capacity
      ensures Abs() == ResolveBook(old(Abs()), batch, v)
    {
      hide TotalTaken, AfterTake, AfterResolve, Release;
      var bytes := TakePermits(batch.meta);
      if bytes > 0 { capacity.GiveBack(bytes); }
      ResolveTickets(batch.meta, v);
      fate := fate[batch.first := Done(v)];
    }

    /** A batch that is not done changes hands. */
    method Assign(batch: Batch, to: Fate)
      modifies this
      ensures Abs() == old(Abs()).(fate := old(fate)[batch.first := to])
    {
      fate := fate[batch.first := to];
    }
  }
}
