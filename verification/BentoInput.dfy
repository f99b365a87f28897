/** One stream of the Bento input: sessions deliver batches, acknowledgements arrive in any order and
    late, and the swept prefix becomes the cached position (s2-bentobox/stream_input.go,
    s2-bentobox/input.go, s2-bentobox/multi_stream_input.go).

    Looking up the position and its generation is one step, and a reset writes the durable cache.
    Each session delivers consecutive records.
 */
module BentoInput {
  import opened Options
  import opened AckTracking

  datatype Range = Range(first: nat, last: nat)

  /** An ack function handed out with a batch; it acts once. */
  datatype Ticket = Ticket(range: Range, used: bool)

  datatype Session = Session(
    gen: nat, entries: seq<Entry>, nacks: seq<Range>, tickets: seq<Ticket>,
    // history; `lost` lists nacked batches that could not be queued
    epoch: nat, swept: nat, next: nat, lost: seq<Range>)

  datatype Position = Position(mem: Option<nat>, durable: Option<nat>, gen: nat)

  /** History. `epoch` counts resets, and `acked` has the acknowledged records of each. `first` is where
      the epoch began: the position stored before the run, the start of the first session, or the tail
      of the reset. `skipped` has the records from `first` on that were not acknowledged when a session
      without a position started at the tail beyond them. */
  datatype Past = Past(epoch: nat, first: Option<nat>, skipped: set<nat>, acked: set<(nat, nat)>)

  datatype State = State(latest: bool, hasDurable: bool, cache: Position, sessions: seq<Session>, past: Past)

  datatype Action =
    | Connect(tail: nat, durableAnswers: bool)
    | Read(session: nat, count: nat)
    | Ack(session: nat, ticket: nat, durableWrites: bool)
    | Nack(session: nat, ticket: nat, queued: bool)
    | ResetToTail(tail: nat)
    | Forget
    | RestartProcess

  function Init(latest: bool, hasDurable: bool, durable: Option<nat>): State {
    var d := if hasDurable then durable else None;
    State(latest, hasDurable, Position(None, d, 0), [], Past(0, d, {}, {}))
  }

  // ---- seqNumCache ----

  /** `Get`: memory, then the durable cache, whose errors count as a miss. */
  function Lookup(c: Position, durableAnswers: bool): Option<nat> {
    if c.mem.Some? then c.mem else if durableAnswers then c.durable else None
  }

  function Remember(c: Position, found: Option<nat>): Position {
    if c.mem.None? && found.Some? then c.(mem := found) else c
  }

  /** `Set`; the error of a failed durable write comes after memory was updated. */
  function SetPosition(c: Position, hasDurable: bool, seqNum: nat, gen: nat, durableWrites: bool): (Position, bool) {
    if gen < c.gen then (c, true)
    else if !hasDurable then (c.(mem := Some(seqNum)), true)
    else if durableWrites then (c.(mem := Some(seqNum), durable := Some(seqNum)), true)
    else (c.(mem := Some(seqNum)), false)
  }

  // ---- sessions ----

  /** Whether a session would start at the tail for want of a position. */
  predicate StartsAtTail(s: State, durableAnswers: bool) {
    s.latest && Lookup(s.cache, durableAnswers).None?
  }

  /** The records of the epoch below `tail` that nobody acknowledged. */
  function Missing(p: Past, tail: nat): set<nat> {
    if p.first.None? then {} else set n | p.first.value <= n < tail && (p.epoch, n) !in p.acked
  }

  function Begins(p: Past, start: nat, atTail: bool): Past {
    p.(first := if p.first.None? then Some(start) else p.first,
       skipped := if atTail then p.skipped + Missing(p, start) else p.skipped)
  }

  function DoConnect(s: State, tail: nat, durableAnswers: bool): State {
    var found := Lookup(s.cache, durableAnswers);
    var start := if found.Some? then found.value else if s.latest then tail else 0;
    s.(cache := Remember(s.cache, found),
       sessions := s.sessions + [Session(s.cache.gen, [], [], [], s.past.epoch, start, start, [])],
       past := Begins(s.past, start, StartsAtTail(s, durableAnswers)))
  }

  /** `ReadBatch` and `handleBatch`: negatively acknowledged batches come first. */
  function ReadBatch(x: Session, count: nat): Session {
    if x.nacks != [] then
      var r := x.nacks[0];
      x.(nacks := x.nacks[1..], entries := Put(x.entries, Entry(r.first, r.last, false)), tickets := x.tickets + [Ticket(r, false)])
    else if count == 0 then x
    else
      var r := Range(x.next, x.next + count - 1);
      x.(entries := Put(x.entries, Entry(r.first, r.last, false)), tickets := x.tickets + [Ticket(r, false)], next := x.next + count)
  }

  function Spend(x: Session, t: nat): Session
    requires t < |x.tickets|
  {
    x.(tickets := x.tickets[t := x.tickets[t].(used := true)])
  }

  /** Marking the batch done; None when it is not tracked. */
  function Mark(es: seq<Entry>, first: nat): Option<seq<Entry>> {
    var i := Find(es, first);
    if i == |es| then None else Some(Put(es, es[i].(acked := true)))
  }

  /** Deleting the scanned prefix. */
  function Sweep(x: Session, es: seq<Entry>): Session {
    var n := AckedPrefix(es);
    x.(entries := es[n..], swept := if n > 0 then es[n - 1].last + 1 else x.swept)
  }

  function Acknowledged(s: State, x: Session, r: Range): set<(nat, nat)> {
    s.past.acked + set n | r.first <= n <= r.last :: (x.epoch, n)
  }

  /** `ack` through its once-guard: mark, scan, write the position, delete. */
  function DoAck(s: State, k: nat, t: nat, durableWrites: bool): State {
    if k >= |s.sessions| || t >= |s.sessions[k].tickets| || s.sessions[k].tickets[t].used then s
    else
      var r := s.sessions[k].tickets[t].range;
      var x := Spend(s.sessions[k], t);
      var marked := Mark(x.entries, r.first);
      if marked.None? then s.(sessions := s.sessions[k := x])
      else
        var es := marked.value;
        var n := AckedPrefix(es);
        var s1 := s.(past := s.past.(acked := Acknowledged(s, x, r)));
        if n == 0 then s1.(sessions := s.sessions[k := x.(entries := es)])
        else
          var (cache, ok) := SetPosition(s.cache, s.hasDurable, es[n - 1].last + 1, x.gen, durableWrites);
          s1.(cache := cache, sessions := s.sessions[k := if ok then Sweep(x, es) else x.(entries := es)])
  }

  /** `nack`: queued for redelivery, or lost with the session when it cannot be. */
  function DoNack(s: State, k: nat, t: nat, queued: bool): State {
    if k >= |s.sessions| || t >= |s.sessions[k].tickets| || s.sessions[k].tickets[t].used then s
    else
      var r := s.sessions[k].tickets[t].range;
      var x := Spend(s.sessions[k], t);
      s.(sessions := s.sessions[k := if queued then x.(nacks := x.nacks + [r]) else x.(lost := x.lost + [r])])
  }

  function DoReset(s: State, tail: nat): State {
    s.(cache := Position(Some(tail), if s.hasDurable then Some(tail) else s.cache.durable, s.cache.gen + 1),
       past := Past(s.past.epoch + 1, Some(tail), {}, s.past.acked))
  }

  function Step(s: State, a: Action): State {
    match a
    case Connect(tail, durableAnswers) => DoConnect(s, tail, durableAnswers)
    case Read(k, count) => if k < |s.sessions| then s.(sessions := s.sessions[k := ReadBatch(s.sessions[k], count)]) else s
    case Ack(k, t, durableWrites) => DoAck(s, k, t, durableWrites)
    case Nack(k, t, queued) => DoNack(s, k, t, queued)
    case ResetToTail(tail) => DoReset(s, tail)
    case Forget => s.(cache := s.cache.(mem := None))
    case RestartProcess => s.(cache := s.cache.(mem := None, gen := 0), sessions := [])
  }

  // ---- invariants ----

  ghost predicate AllAcked(acked: set<(nat, nat)>, epoch: nat, lo: nat, hi: nat) {
    forall n | lo <= n < hi :: (epoch, n) in acked
  }

  ghost predicate EntriesAcked(es: seq<Entry>, epoch: nat, acked: set<(nat, nat)>) {
    forall i | 0 <= i < |es| && es[i].acked :: AllAcked(acked, epoch, es[i].first, es[i].last + 1)
  }

  /** A batch still waiting for its answer. */
  ghost predicate Open(es: seq<Entry>, r: Range) {
    Entry(r.first, r.last, false) in es
  }

  /** Every unanswered batch has exactly one way to be answered: a ticket or a place in the queue. */
  ghost predicate OneAnswer(tickets: seq<Ticket>, nacks: seq<Range>) {
    && (forall i, j | 0 <= i < j < |tickets| && !tickets[i].used && !tickets[j].used :: tickets[i].range.first != tickets[j].range.first)
    && (forall i, j | 0 <= i < |tickets| && !tickets[i].used && 0 <= j < |nacks| :: tickets[i].range.first != nacks[j].first)
    && (forall i, j | 0 <= i < j < |nacks| :: nacks[i].first != nacks[j].first)
  }

  ghost predicate AllOpen(es: seq<Entry>, tickets: seq<Ticket>, nacks: seq<Range>) {
    && (forall i | 0 <= i < |tickets| && !tickets[i].used :: Open(es, tickets[i].range))
    && (forall j | 0 <= j < |nacks| :: Open(es, nacks[j]))
  }

  /** Someone still owes an answer for the batch, or its nack could not be queued. */
  ghost predicate Answerable(tickets: seq<Ticket>, nacks: seq<Range>, lost: seq<Range>, r: Range) {
    Ticket(r, false) in tickets || r in nacks || r in lost
  }

  ghost predicate NoneForgotten(es: seq<Entry>, tickets: seq<Ticket>, nacks: seq<Range>, lost: seq<Range>) {
    forall i | 0 <= i < |es| && !es[i].acked :: Answerable(tickets, nacks, lost, Range(es[i].first, es[i].last))
  }

  ghost predicate SessionWell(x: Session, acked: set<(nat, nat)>) {
    && NoneForgotten(x.entries, x.tickets, x.nacks, x.lost)
    && Chain(x.entries, x.swept, x.next)
    && EntriesAcked(x.entries, x.epoch, acked)
    && OneAnswer(x.tickets, x.nacks)
    && AllOpen(x.entries, x.tickets, x.nacks)
  }

  /** Every record of the epoch below `hi` was acknowledged or skipped. */
  ghost predicate Reached(p: Past, hi: nat) {
    p.first.Some? && forall n | p.first.value <= n < hi :: (p.epoch, n) in p.acked || n in p.skipped
  }

  /** A session of the current generation has swept only acknowledged records; older ones cannot write. */
  ghost predicate SessionAgrees(x: Session, gen: nat, p: Past) {
    && x.gen <= gen && (x.gen == gen <==> x.epoch == p.epoch) && x.epoch <= p.epoch
    && (x.epoch == p.epoch ==> Reached(p, x.swept))
  }

  ghost predicate CacheAgrees(c: Position, p: Past) {
    && (c.mem.Some? ==> Reached(p, c.mem.value))
    && (c.durable.Some? ==> Reached(p, c.durable.value))
  }

  ghost predicate SessionsAgree(sessions: seq<Session>, gen: nat, p: Past) {
    forall k | 0 <= k < |sessions| :: SessionWell(sessions[k], p.acked) && SessionAgrees(sessions[k], gen, p)
  }

  ghost predicate Inv(s: State) {
    && CacheAgrees(s.cache, s.past)
    && SessionsAgree(s.sessions, s.cache.gen, s.past)
    && (!s.hasDurable ==> s.cache.durable.None?)
    && (!s.latest ==> s.past.skipped == {})
  }

  // ---- reading ----

  lemma OpenAt(es: seq<Entry>, lo: nat, hi: nat, r: Range) returns (i: nat)
    requires Chain(es, lo, hi) && Open(es, r)
    ensures i < |es| && es[i] == Entry(r.first, r.last, false) && lo <= r.first <= r.last < hi
  {
    i :| 0 <= i < |es| && es[i] == Entry(r.first, r.last, false);
    ChainBounds(es, lo, hi, i);
  }

  lemma RequeueAnswers(x: Session)
    requires OneAnswer(x.tickets, x.nacks) && x.nacks != []
    ensures OneAnswer(x.tickets + [Ticket(x.nacks[0], false)], x.nacks[1..])
  {
  }

  lemma RequeueOpen(x: Session)
    requires AllOpen(x.entries, x.tickets, x.nacks) && x.nacks != []
    ensures AllOpen(x.entries, x.tickets + [Ticket(x.nacks[0], false)], x.nacks[1..])
  {
    hide Open;
  }

  lemma RequeueKnown(x: Session)
    requires NoneForgotten(x.entries, x.tickets, x.nacks, x.lost) && x.nacks != []
    ensures NoneForgotten(x.entries, x.tickets + [Ticket(x.nacks[0], false)], x.nacks[1..], x.lost)
  {
    assert x.nacks == [x.nacks[0]] + x.nacks[1..];
  }

  lemma NewKnown(x: Session, r: Range)
    requires NoneForgotten(x.entries, x.tickets, [], x.lost)
    ensures NoneForgotten(x.entries + [Entry(r.first, r.last, false)], x.tickets + [Ticket(r, false)], [], x.lost)
  {
    var es, tickets := x.entries + [Entry(r.first, r.last, false)], x.tickets + [Ticket(r, false)];
    assert Ticket(r, false) in tickets;
    forall i | 0 <= i < |es| && !es[i].acked ensures Answerable(tickets, [], x.lost, Range(es[i].first, es[i].last)) {
      if i < |x.entries| { assert Answerable(x.tickets, [], x.lost, Range(es[i].first, es[i].last)); }
    }
  }

  /** Spending a ticket leaves the answers for other batches. */
  lemma SpendKnown(tickets: seq<Ticket>, t: nat, nacks: seq<Range>, lost: seq<Range>, r: Range)
    requires t < |tickets| && Answerable(tickets, nacks, lost, r)
    ensures r != tickets[t].range ==> Answerable(tickets[t := tickets[t].(used := true)], nacks, lost, r)
    ensures Answerable(tickets[t := tickets[t].(used := true)], nacks + [tickets[t].range], lost, r)
    ensures Answerable(tickets[t := tickets[t].(used := true)], nacks, lost + [tickets[t].range], r)
  {
    if Ticket(r, false) in tickets && r != tickets[t].range {
      var j :| 0 <= j < |tickets| && tickets[j] == Ticket(r, false);
      assert tickets[t := tickets[t].(used := true)][j] == Ticket(r, false);
    }
  }

  lemma NackKnown(x: Session, t: nat, queued: bool)
    requires NoneForgotten(x.entries, x.tickets, x.nacks, x.lost) && t < |x.tickets|
    ensures var r := x.tickets[t].range;
            NoneForgotten(x.entries, Spend(x, t).tickets, if queued then x.nacks + [r] else x.nacks, if queued then x.lost else x.lost + [r])
  {
    hide Answerable;
    forall i | 0 <= i < |x.entries| && !x.entries[i].acked
      ensures var r := Range(x.entries[i].first, x.entries[i].last);
              && Answerable(Spend(x, t).tickets, x.nacks + [x.tickets[t].range], x.lost, r)
              && Answerable(Spend(x, t).tickets, x.nacks, x.lost + [x.tickets[t].range], r)
    {
      SpendKnown(x.tickets, t, x.nacks, x.lost, Range(x.entries[i].first, x.entries[i].last));
    }
  }

  lemma MarkKnown(x: Session, t: nat, i: nat)
    requires NoneForgotten(x.entries, x.tickets, x.nacks, x.lost) && t < |x.tickets| && Chain(x.entries, x.swept, x.next)
    requires i < |x.entries| && x.entries[i].first == x.tickets[t].range.first
    ensures NoneForgotten(x.entries[i := x.entries[i].(acked := true)], Spend(x, t).tickets, x.nacks, x.lost)
  {
    hide Answerable, Chain;
    var es := x.entries[i := x.entries[i].(acked := true)];
    forall j | 0 <= j < |es| && !es[j].acked ensures Answerable(Spend(x, t).tickets, x.nacks, x.lost, Range(es[j].first, es[j].last)) {
      FirstsDiffer(x.entries, x.swept, x.next, i, j);
      SpendKnown(x.tickets, t, x.nacks, x.lost, Range(es[j].first, es[j].last));
    }
  }

  lemma FirstsDiffer(es: seq<Entry>, lo: nat, hi: nat, i: nat, j: nat)
    requires Chain(es, lo, hi) && i < |es| && j < |es| && i != j
    ensures es[i].first != es[j].first
  {
    if i < j { ChainOrdered(es, lo, hi, i, j); } else { ChainOrdered(es, lo, hi, j, i); }
  }

  lemma SweepKnown(es: seq<Entry>, n: nat, x: Session)
    requires n <= |es| && NoneForgotten(es, x.tickets, x.nacks, x.lost)
    ensures NoneForgotten(es[n..], x.tickets, x.nacks, x.lost)
  {
    hide Answerable;
    forall i | 0 <= i < |es[n..]| && !es[n..][i].acked ensures Answerable(x.tickets, x.nacks, x.lost, Range(es[n..][i].first, es[n..][i].last)) {
      assert es[n..][i] == es[n + i];
    }
  }

  /** Delivering a batch again leaves its entry as it is. */
  lemma RedeliverInv(x: Session, acked: set<(nat, nat)>)
    requires SessionWell(x, acked) && x.nacks != []
    ensures SessionWell(ReadBatch(x, 0), acked) && ReadBatch(x, 0).entries == x.entries
  {
    var r := x.nacks[0];
    assert Open(x.entries, r);
    hide EntriesAcked, Open, Chain, OneAnswer, AllOpen, Put, NoneForgotten;
    RequeueKnown(x);
    var i := OpenAt(x.entries, x.swept, x.next, r);
    ChainPutSame(x.entries, x.swept, x.next, i, Entry(r.first, r.last, false));
    assert x.entries[i := x.entries[i]] == x.entries;
    RequeueAnswers(x);
    RequeueOpen(x);
  }

  lemma NewAnswers(x: Session, r: Range)
    requires OneAnswer(x.tickets, []) && forall i | 0 <= i < |x.tickets| && !x.tickets[i].used :: x.tickets[i].range.first != r.first
    ensures OneAnswer(x.tickets + [Ticket(r, false)], [])
  {
  }

  lemma NewOpen(es: seq<Entry>, tickets: seq<Ticket>, r: Range)
    requires AllOpen(es, tickets, [])
    ensures AllOpen(es + [Entry(r.first, r.last, false)], tickets + [Ticket(r, false)], [])
  {
  }

  lemma DeliverInv(x: Session, count: nat, acked: set<(nat, nat)>)
    requires SessionWell(x, acked) && x.nacks == [] && count > 0
    ensures SessionWell(ReadBatch(x, count), acked)
  {
    hide Chain, Open, AllAcked, Put, NoneForgotten;
    NewKnown(x, Range(x.next, x.next + count - 1));
    var e := Entry(x.next, x.next + count - 1, false);
    ChainPutNew(x.entries, x.swept, x.next, e);
    forall i | 0 <= i < |x.tickets| && !x.tickets[i].used ensures x.tickets[i].range.first != x.next {
      var j := OpenAt(x.entries, x.swept, x.next, x.tickets[i].range);
    }
    hide OneAnswer, AllOpen;
    NewAnswers(x, Range(e.first, e.last));
    NewOpen(x.entries, x.tickets, Range(e.first, e.last));
  }

  lemma ReadInv(x: Session, count: nat, acked: set<(nat, nat)>)
    requires SessionWell(x, acked)
    ensures SessionWell(ReadBatch(x, count), acked)
  {
    hide SessionWell;
    if x.nacks != [] { RedeliverInv(x, acked); } else if count > 0 { DeliverInv(x, count, acked); }
  }

  // ---- answering ----

  lemma SpendAnswers(x: Session, t: nat, queued: bool)
    requires OneAnswer(x.tickets, x.nacks) && t < |x.tickets| && !x.tickets[t].used
    ensures OneAnswer(Spend(x, t).tickets, if queued then x.nacks + [x.tickets[t].range] else x.nacks)
  {
  }

  lemma NackInv(x: Session, t: nat, queued: bool, acked: set<(nat, nat)>)
    requires SessionWell(x, acked) && t < |x.tickets| && !x.tickets[t].used
    ensures SessionWell(Spend(x, t).(nacks := if queued then x.nacks + [x.tickets[t].range] else x.nacks,
                                     lost := if queued then x.lost else x.lost + [x.tickets[t].range]), acked)
  {
    hide Chain, EntriesAcked, OneAnswer, Open, NoneForgotten;
    NackKnown(x, t, queued);
    SpendAnswers(x, t, queued);
  }

  /** An unspent ticket's batch is tracked, so marking it never fails. */
  lemma MarkFinds(x: Session, t: nat, acked: set<(nat, nat)>) returns (i: nat)
    requires SessionWell(x, acked) && t < |x.tickets| && !x.tickets[t].used
    ensures i < |x.entries| && x.entries[i] == Entry(x.tickets[t].range.first, x.tickets[t].range.last, false)
    ensures Mark(x.entries, x.tickets[t].range.first) == Some(x.entries[i := x.entries[i].(acked := true)])
    ensures Chain(x.entries[i := x.entries[i].(acked := true)], x.swept, x.next)
  {
    hide EntriesAcked, OneAnswer, Open, Chain, NoneForgotten;
    var r := x.tickets[t].range;
    i := OpenAt(x.entries, x.swept, x.next, r);
    ChainPutSame(x.entries, x.swept, x.next, i, x.entries[i].(acked := true));
  }

  lemma MarkOpen(x: Session, t: nat, i: nat)
    requires AllOpen(x.entries, x.tickets, x.nacks) && OneAnswer(x.tickets, x.nacks) && t < |x.tickets| && !x.tickets[t].used
    requires i < |x.entries| && x.entries[i].first == x.tickets[t].range.first
    ensures AllOpen(x.entries[i := x.entries[i].(acked := true)], Spend(x, t).tickets, x.nacks)
  {
    var es := x.entries[i := x.entries[i].(acked := true)];
    assert forall r | Open(x.entries, r) && r.first != x.entries[i].first :: Open(es, r) by {
      forall r | Open(x.entries, r) && r.first != x.entries[i].first ensures Open(es, r) {
        var j :| 0 <= j < |x.entries| && x.entries[j] == Entry(r.first, r.last, false);
        assert es[j] == x.entries[j];
      }
    }
  }

  lemma MarkAcked(s: State, x: Session, i: nat, r: Range)
    requires EntriesAcked(x.entries, x.epoch, s.past.acked) && i < |x.entries| && x.entries[i].first == r.first && x.entries[i].last == r.last
    ensures EntriesAcked(x.entries[i := x.entries[i].(acked := true)], x.epoch, Acknowledged(s, x, r))
  {
    var acked := Acknowledged(s, x, r);
    assert AllAcked(acked, x.epoch, r.first, r.last + 1);
    forall lo: nat, hi: nat | AllAcked(s.past.acked, x.epoch, lo, hi) ensures AllAcked(acked, x.epoch, lo, hi) {}
  }

  /** Dropping the scanned prefix drops no batch that still waits. */
  lemma SweepOpen(es: seq<Entry>, n: nat, tickets: seq<Ticket>, nacks: seq<Range>)
    requires n <= |es| && AllOpen(es, tickets, nacks) && forall i | 0 <= i < n :: es[i].acked
    ensures AllOpen(es[n..], tickets, nacks)
  {
    assert forall r | Open(es, r) :: Open(es[n..], r) by {
      forall r | Open(es, r) ensures Open(es[n..], r) {
        var j :| 0 <= j < |es| && es[j] == Entry(r.first, r.last, false);
        assert es[n..][j - n] == es[j];
      }
    }
  }

  lemma SweepAcked(es: seq<Entry>, n: nat, epoch: nat, acked: set<(nat, nat)>)
    requires n <= |es| && EntriesAcked(es, epoch, acked)
    ensures EntriesAcked(es[n..], epoch, acked)
  {
    hide AllAcked;
    forall i | 0 <= i < |es[n..]| && es[n..][i].acked ensures AllAcked(acked, epoch, es[n..][i].first, es[n..][i].last + 1) {
      assert es[n..][i] == es[n + i];
    }
  }

  /** All records up to the end of the scanned prefix are acknowledged. */
  lemma PrefixReaches(es: seq<Entry>, lo: nat, hi: nat, epoch: nat, acked: set<(nat, nat)>)
    requires Chain(es, lo, hi) && EntriesAcked(es, epoch, acked) && AckedPrefix(es) > 0
    ensures AllAcked(acked, epoch, lo, es[AckedPrefix(es) - 1].last + 1)
  {
    var n := AckedPrefix(es);
    PrefixAcked(es, 0);
    forall x: nat | lo <= x < es[n - 1].last + 1 ensures (epoch, x) in acked {
      ChainBounds(es, lo, hi, n - 1);
      var i := ChainCovers(es, lo, hi, x);
      if i >= n { ChainOrdered(es, lo, hi, n - 1, i); }
      assert AllAcked(acked, epoch, es[i].first, es[i].last + 1);
    }
  }

  lemma AckMarks(s: State, x: Session, t: nat) returns (es: seq<Entry>)
    requires SessionWell(x, s.past.acked) && t < |x.tickets| && !x.tickets[t].used
    ensures Mark(x.entries, x.tickets[t].range.first) == Some(es)
    ensures SessionWell(Spend(x, t).(entries := es), Acknowledged(s, x, x.tickets[t].range))
  {
    hide AllOpen, Chain, OneAnswer, EntriesAcked, Mark, NoneForgotten;
    var i := MarkFinds(x, t, s.past.acked);
    es := x.entries[i := x.entries[i].(acked := true)];
    MarkOpen(x, t, i);
    MarkKnown(x, t, i);
    MarkAcked(s, x, i, x.tickets[t].range);
    SpendAnswers(x, t, false);
  }

  lemma SweepInv(x: Session, acked: set<(nat, nat)>)
    requires SessionWell(x, acked)
    ensures SessionWell(Sweep(x, x.entries), acked)
    ensures AckedPrefix(x.entries) > 0 ==> AllAcked(acked, x.epoch, x.swept, Sweep(x, x.entries).swept)
  {
    hide AllOpen, Chain, OneAnswer, EntriesAcked, AllAcked, AckedPrefix, NoneForgotten;
    var n := AckedPrefix(x.entries);
    PrefixIs(x.entries);
    SweepOpen(x.entries, n, x.tickets, x.nacks);
    SweepKnown(x.entries, n, x);
    SweepAcked(x.entries, n, x.epoch, acked);
    if n > 0 {
      ChainSweep(x.entries, x.swept, x.next, n);
      PrefixReaches(x.entries, x.swept, x.next, x.epoch, acked);
    } else {
      assert x.entries[0..] == x.entries;
    }
  }

  lemma PrefixIs(es: seq<Entry>)
    ensures forall i | 0 <= i < AckedPrefix(es) :: es[i].acked
  {
    PrefixAcked(es, 0);
  }

  // ---- the whole state ----

  /** Within an epoch, history only grows. */
  ghost predicate Grows(p: Past, q: Past) {
    p.epoch == q.epoch && (p.first.Some? ==> q.first == p.first) && p.skipped <= q.skipped && p.acked <= q.acked
  }

  lemma MorePast(x: Session, gen: nat, p: Past, q: Past)
    requires SessionWell(x, p.acked) && SessionAgrees(x, gen, p) && Grows(p, q)
    ensures SessionWell(x, q.acked) && SessionAgrees(x, gen, q)
  {
    hide Chain, OneAnswer, AllOpen, NoneForgotten;
    forall e: nat, lo: nat, hi: nat | AllAcked(p.acked, e, lo, hi) ensures AllAcked(q.acked, e, lo, hi) {}
  }

  lemma SessionsMore(sessions: seq<Session>, gen: nat, p: Past, q: Past)
    requires SessionsAgree(sessions, gen, p) && Grows(p, q)
    ensures SessionsAgree(sessions, gen, q)
  {
    hide SessionWell, SessionAgrees, Grows;
    forall k | 0 <= k < |sessions| ensures SessionWell(sessions[k], q.acked) && SessionAgrees(sessions[k], gen, q) {
      MorePast(sessions[k], gen, p, q);
    }
  }

  lemma CacheMore(c: Position, p: Past, q: Past)
    requires CacheAgrees(c, p) && Grows(p, q)
    ensures CacheAgrees(c, q)
  {
  }

  /** One session changes and history grows. */
  lemma ReplaceSession(s: State, k: nat, x: Session, q: Past)
    requires SessionsAgree(s.sessions, s.cache.gen, s.past) && k < |s.sessions| && Grows(s.past, q)
    requires SessionWell(x, q.acked) && SessionAgrees(x, s.cache.gen, q)
    ensures SessionsAgree(s.sessions[k := x], s.cache.gen, q)
  {
    hide SessionWell, SessionAgrees, Grows;
    SessionsMore(s.sessions, s.cache.gen, s.past, q);
  }

  /** A start from the cache, at the tail or at zero has everything before it acknowledged or skipped. */
  lemma StartReached(s: State, tail: nat, durableAnswers: bool)
    requires Inv(s)
    ensures var t := DoConnect(s, tail, durableAnswers);
            Grows(s.past, t.past) && Reached(t.past, t.sessions[|s.sessions|].swept) && (!s.latest ==> t.past.skipped == {})
  {
    hide SessionWell, SessionsAgree;
  }

  lemma ConnectInv(s: State, tail: nat, durableAnswers: bool)
    requires Inv(s)
    ensures Inv(DoConnect(s, tail, durableAnswers))
  {
    hide SessionWell, Reached, Grows, Begins;
    var t := DoConnect(s, tail, durableAnswers);
    StartReached(s, tail, durableAnswers);
    BeginsKeeps(s.past, t.sessions[|s.sessions|].swept, StartsAtTail(s, durableAnswers));
    SessionsMore(s.sessions, s.cache.gen, s.past, t.past);
    CacheMore(s.cache, s.past, t.past);
    FreshSession(t.sessions[|s.sessions|], t.past.acked);
  }

  lemma BeginsKeeps(p: Past, start: nat, atTail: bool)
    ensures Begins(p, start, atTail).epoch == p.epoch && Begins(p, start, atTail).acked == p.acked
  {
  }

  lemma FreshSession(x: Session, acked: set<(nat, nat)>)
    requires x.entries == [] && x.nacks == [] && x.tickets == [] && x.swept == x.next
    ensures SessionWell(x, acked)
  {
  }

  /** After the marked batch and the scan: the session as it is written back. */
  lemma AckedSession(s: State, x: Session, es: seq<Entry>, q: Past)
    requires SessionWell(x.(entries := es), q.acked) && SessionAgrees(x, s.cache.gen, q)
    requires AckedPrefix(es) > 0
    ensures SessionWell(Sweep(x, es), q.acked) && SessionAgrees(Sweep(x, es), s.cache.gen, q)
    ensures x.epoch == q.epoch ==> Reached(q, es[AckedPrefix(es) - 1].last + 1)
  {
    hide SessionWell, AckedPrefix;
    var y := x.(entries := es);
    SweepInv(y, q.acked);
    assert Sweep(y, es) == Sweep(x, es);
  }

  lemma SetAgrees(s: State, x: Session, seqNum: nat, q: Past, durableWrites: bool)
    requires CacheAgrees(s.cache, q) && SessionAgrees(x, s.cache.gen, q)
    requires x.epoch == q.epoch ==> Reached(q, seqNum)
    ensures var c := SetPosition(s.cache, s.hasDurable, seqNum, x.gen, durableWrites).0;
            CacheAgrees(c, q) && c.gen == s.cache.gen && (!s.hasDurable ==> c.durable == s.cache.durable)
  {
    hide Reached;
  }

  lemma AckInv(s: State, k: nat, t: nat, durableWrites: bool)
    requires Inv(s)
    ensures Inv(DoAck(s, k, t, durableWrites))
  {
    hide SessionWell, AckedPrefix, CacheAgrees, SessionsAgree, Mark, SetPosition, Sweep, Acknowledged, SessionAgrees, Grows;
    if k < |s.sessions| && t < |s.sessions[k].tickets| && !s.sessions[k].tickets[t].used {
      var x0 := s.sessions[k];
      SessionIs(s, k);
      var r := x0.tickets[t].range;
      var x := Spend(x0, t);
      var q := s.past.(acked := Acknowledged(s, x0, r));
      AcknowledgedGrows(s, x0, x, r);
      var es := AckMarks(s, x0, t);
      SpentAgrees(s, x0, t, es, q);
      CacheMore(s.cache, s.past, q);
      ReplaceSession(s, k, x.(entries := es), q);
      if AckedPrefix(es) > 0 {
        AckedSession(s, x, es, q);
        ReplaceSession(s, k, Sweep(x, es), q);
        SetAgrees(s, x, es[AckedPrefix(es) - 1].last + 1, q, durableWrites);
      }
    }
  }

  lemma SessionIs(s: State, k: nat)
    requires Inv(s) && k < |s.sessions|
    ensures SessionWell(s.sessions[k], s.past.acked) && SessionAgrees(s.sessions[k], s.cache.gen, s.past)
  {
  }

  lemma AcknowledgedGrows(s: State, x: Session, y: Session, r: Range)
    requires x.epoch == y.epoch
    ensures Acknowledged(s, x, r) == Acknowledged(s, y, r) && Grows(s.past, s.past.(acked := Acknowledged(s, x, r)))
  {
  }

  lemma SpentAgrees(s: State, x: Session, t: nat, es: seq<Entry>, q: Past)
    requires t < |x.tickets| && SessionAgrees(x, s.cache.gen, s.past) && Grows(s.past, q)
    ensures SessionAgrees(Spend(x, t).(entries := es), s.cache.gen, q)
    ensures SessionAgrees(Spend(x, t), s.cache.gen, q)
  {
  }

  lemma ResetInv(s: State, tail: nat)
    requires Inv(s)
    ensures Inv(DoReset(s, tail))
  {
    hide SessionWell;
    var t := DoReset(s, tail);
    forall k | 0 <= k < |s.sessions| ensures SessionAgrees(s.sessions[k], t.cache.gen, t.past) {
      assert SessionAgrees(s.sessions[k], s.cache.gen, s.past);
    }
  }

  lemma SessionStepInv(s: State, k: nat, x: Session)
    requires Inv(s) && k < |s.sessions| && SessionWell(x, s.past.acked)
    requires x.gen == s.sessions[k].gen && x.epoch == s.sessions[k].epoch && x.swept == s.sessions[k].swept
    ensures Inv(s.(sessions := s.sessions[k := x]))
  {
    hide SessionWell, CacheAgrees;
    SessionIs(s, k);
    ReplaceSession(s, k, x, s.past);
  }

  lemma StepInv(s: State, a: Action)
    requires Inv(s)
    ensures Inv(Step(s, a))
  {
    hide SessionWell, CacheAgrees, SessionsAgree, DoConnect, DoAck, DoReset;
    match a
    case Connect(tail, durableAnswers) => ConnectInv(s, tail, durableAnswers);
    case Read(k, count) =>
      if k < |s.sessions| {
        SessionIs(s, k);
        ReadInv(s.sessions[k], count, s.past.acked);
        SessionStepInv(s, k, ReadBatch(s.sessions[k], count));
      }
    case Ack(k, t, durableWrites) => AckInv(s, k, t, durableWrites);
    case Nack(k, t, queued) =>
      if k < |s.sessions| && t < |s.sessions[k].tickets| && !s.sessions[k].tickets[t].used {
        SessionIs(s, k);
        var x := s.sessions[k];
        NackInv(x, t, queued, s.past.acked);
        SessionStepInv(s, k, Spend(x, t).(nacks := if queued then x.nacks + [x.tickets[t].range] else x.nacks,
                                          lost := if queued then x.lost else x.lost + [x.tickets[t].range]));
      }
    case ResetToTail(tail) => ResetInv(s, tail);
    case Forget => ForgetInv(s, s.cache.gen, s.sessions);
    case RestartProcess => ForgetInv(s, 0, []);
  }

  lemma ForgetInv(s: State, gen: nat, sessions: seq<Session>)
    requires Inv(s) && ((gen == s.cache.gen && sessions == s.sessions) || sessions == [])
    ensures Inv(s.(cache := s.cache.(mem := None, gen := gen), sessions := sessions))
  {
    hide SessionWell, Reached;
  }

  // ---- whole runs ----

  function RunFrom(s: State, actions: seq<Action>): State
    decreases |actions|
  {
    if actions == [] then s else Step(RunFrom(s, actions[..|actions| - 1]), actions[|actions| - 1])
  }

  lemma {:induction false} RunInv(s: State, actions: seq<Action>)
    requires Inv(s)
    ensures Inv(RunFrom(s, actions))
    decreases |actions|
  {
    hide Inv;
    if actions != [] {
      RunInv(s, actions[..|actions| - 1]);
      StepInv(RunFrom(s, actions[..|actions| - 1]), actions[|actions| - 1]);
    }
  }

  lemma Reaches(latest: bool, hasDurable: bool, durable: Option<nat>, actions: seq<Action>)
    ensures Inv(RunFrom(Init(latest, hasDurable, durable), actions))
  {
    assert Inv(Init(latest, hasDurable, durable));
    hide Inv;
    RunInv(Init(latest, hasDurable, durable), actions);
  }

  /** The position in the cache, in memory or durable: every record from the epoch's first start up to
      it was acknowledged, apart from those that a start at the tail skipped. */
  lemma PositionAccountedFor(latest: bool, hasDurable: bool, durable: Option<nat>, actions: seq<Action>, p: nat, n: nat)
    requires var s := RunFrom(Init(latest, hasDurable, durable), actions);
             s.cache.mem == Some(p) || s.cache.durable == Some(p)
    ensures var s := RunFrom(Init(latest, hasDurable, durable), actions);
            s.past.first.Some? && (s.past.first.value <= n < p ==> (s.past.epoch, n) in s.past.acked || n in s.past.skipped)
  {
    hide RunFrom, SessionsAgree;
    Reaches(latest, hasDurable, durable, actions);
  }

  /** So it was acknowledged for certain unless some session since the last reset started at the tail
      over records not acknowledged; with the earliest record as the default no session does. */
  lemma PositionIsAcked(latest: bool, hasDurable: bool, durable: Option<nat>, actions: seq<Action>, p: nat, n: nat)
    requires var s := RunFrom(Init(latest, hasDurable, durable), actions);
             (s.cache.mem == Some(p) || s.cache.durable == Some(p)) && s.past.first.Some? && s.past.first.value <= n < p
    requires !latest || RunFrom(Init(latest, hasDurable, durable), actions).past.skipped == {}
    ensures var s := RunFrom(Init(latest, hasDurable, durable), actions); (s.past.epoch, n) in s.past.acked
  {
    hide RunFrom, SessionsAgree;
    Reaches(latest, hasDurable, durable, actions);
    SameSettings(Init(latest, hasDurable, durable), actions);
  }

  /** `Connect` takes the tail by default over a record of the epoch that was not acknowledged. */
  ghost predicate Skips(s: State, a: Action) {
    && a.Connect? && StartsAtTail(s, a.durableAnswers) && s.past.first.Some?
    && exists n :: s.past.first.value <= n < a.tail && (s.past.epoch, n) !in s.past.acked
  }

  /** The session that `Connect` opens has every record of the epoch before it acknowledged. */
  ghost predicate StartsAcked(s: State, a: Action) {
    a.Connect? ==>
      var t := Step(s, a);
      t.past.first.Some? && forall n | t.past.first.value <= n < t.sessions[|s.sessions|].next :: (t.past.epoch, n) in t.past.acked
  }

  lemma StartsAckedIff(s: State, a: Action)
    requires Inv(s) && s.past.skipped == {}
    ensures StartsAcked(s, a) <==> !Skips(s, a)
    ensures !Skips(s, a) ==> Step(s, a).past.skipped == {}
  {
    hide SessionWell, SessionsAgree, DoAck, DoNack, ReadBatch;
    if a.Connect? {
      StartReached(s, a.tail, a.durableAnswers);
    } else {
      SkipsOnlyConnecting(s, a);
    }
  }

  lemma SkipsOnlyConnecting(s: State, a: Action)
    requires !a.Connect? && s.past.skipped == {}
    ensures Step(s, a).past.skipped == {}
  {
    hide Mark, AckedPrefix, Sweep, Acknowledged, ReadBatch;
  }

  /** In every run the sessions all start with every record since the epoch's first start acknowledged
      if and only if no session took the tail by default over one that was not. */
  lemma {:induction false} SessionsStartAckedIff(latest: bool, hasDurable: bool, durable: Option<nat>, actions: seq<Action>)
    ensures var init := Init(latest, hasDurable, durable);
            && (AllStartAcked(init, actions) <==> NeverSkips(init, actions))
            && (NeverSkips(init, actions) ==> RunFrom(init, actions).past.skipped == {})
    decreases |actions|
  {
    hide Inv, Skips, StartsAcked, Step;
    var init := Init(latest, hasDurable, durable);
    if actions != [] {
      var before := actions[..|actions| - 1];
      SessionsStartAckedIff(latest, hasDurable, durable, before);
      Reaches(latest, hasDurable, durable, before);
      if NeverSkips(init, before) { StartsAckedIff(RunFrom(init, before), actions[|actions| - 1]); }
    }
  }

  ghost predicate NeverSkips(s: State, actions: seq<Action>)
    decreases |actions|
  {
    actions != [] ==>
      var before := actions[..|actions| - 1];
      NeverSkips(s, before) && !Skips(RunFrom(s, before), actions[|actions| - 1])
  }

  ghost predicate AllStartAcked(s: State, actions: seq<Action>)
    decreases |actions|
  {
    actions != [] ==>
      var before := actions[..|actions| - 1];
      AllStartAcked(s, before) && StartsAcked(RunFrom(s, before), actions[|actions| - 1])
  }

  /** The condition is needed: the second session finds no position, starts at the tail, and its own ack
      moves the position past records that the first one delivered and nobody acknowledged. */
  lemma TailDefaultSkips()
    ensures var s := RunFrom(Init(true, true, None),
                             [Connect(100, true), Read(0, 10), Connect(150, true), Read(1, 10), Ack(1, 0, true)]);
            && s.past.first == Some(100) && s.cache.mem == s.cache.durable == Some(160)
            && forall n | 100 <= n < 150 :: (0, n) !in s.past.acked && n in s.past.skipped
  {
    var s0 := Init(true, true, None);
    var a := [Connect(100, true), Read(0, 10), Connect(150, true), Read(1, 10), Ack(1, 0, true)];
    assert a[..0] == [] && a[..4][..3] == a[..3] && a[..3][..2] == a[..2] && a[..2][..1] == a[..1] && a[..1][..0] == [];
    var s1 := Step(s0, a[0]);
    assert s1 == RunFrom(s0, a[..1]);
    var s2 := Step(s1, a[1]);
    assert s2 == RunFrom(s0, a[..2]);
    var s3 := Step(s2, a[2]);
    assert s3 == RunFrom(s0, a[..3]);
    var s4 := Step(s3, a[3]);
    assert s4 == RunFrom(s0, a[..4]);
    assert Step(s4, a[4]) == RunFrom(s0, a);
    assert s4.sessions[1].entries == [Entry(150, 159, false)];
    MarkAlone(150, 159);
  }

  lemma MarkAlone(first: nat, last: nat)
    ensures Mark([Entry(first, last, false)], first) == Some([Entry(first, last, true)])
    ensures AckedPrefix([Entry(first, last, true)]) == 1
  {
    var es := [Entry(first, last, false)];
    assert Find(es, first) == 0;
    assert [Entry(first, last, true)] + es[1..] == [Entry(first, last, true)];
  }

  /** An ack of an unspent ticket always finds its batch tracked. */
  lemma AckFindsBatch(latest: bool, hasDurable: bool, durable: Option<nat>, actions: seq<Action>, k: nat, t: nat)
    requires var s := RunFrom(Init(latest, hasDurable, durable), actions);
             k < |s.sessions| && t < |s.sessions[k].tickets| && !s.sessions[k].tickets[t].used
    ensures var x := RunFrom(Init(latest, hasDurable, durable), actions).sessions[k];
            Mark(x.entries, x.tickets[t].range.first).Some?
  {
    hide Inv, RunFrom, SessionWell;
    var s := RunFrom(Init(latest, hasDurable, durable), actions);
    Reaches(latest, hasDurable, durable, actions);
    SessionIs(s, k);
    var i := MarkFinds(s.sessions[k], t, s.past.acked);
  }

  /** A delivered batch that was not acknowledged still has its ticket, waits for redelivery, or its
      nack could not be queued: none is forgotten, and the tracked batches are exactly the delivered
      records not yet swept. */
  lemma NoBatchForgotten(latest: bool, hasDurable: bool, durable: Option<nat>, actions: seq<Action>, k: nat, n: nat)
    requires var s := RunFrom(Init(latest, hasDurable, durable), actions);
             k < |s.sessions| && s.sessions[k].swept <= n < s.sessions[k].next
    ensures var s := RunFrom(Init(latest, hasDurable, durable), actions);
            var x := s.sessions[k];
            (x.epoch, n) in s.past.acked || exists r: Range :: r.first <= n <= r.last && Answerable(x.tickets, x.nacks, x.lost, r)
  {
    hide Inv, RunFrom, Answerable;
    var s := RunFrom(Init(latest, hasDurable, durable), actions);
    Reaches(latest, hasDurable, durable, actions);
    SessionIs(s, k);
    var x := s.sessions[k];
    var i := ChainCovers(x.entries, x.swept, x.next, n);
    var e := x.entries[i];
    if e.acked { assert AllAcked(s.past.acked, x.epoch, e.first, e.last + 1); }
    else { assert Range(e.first, e.last).first <= n <= Range(e.first, e.last).last; }
  }

  /** The generation of the session stays, and the cache's is at least what it was. */
  lemma StepGenerations(s: State, a: Action, k: nat)
    requires !a.RestartProcess? && k < |s.sessions|
    ensures var t := Step(s, a); k < |t.sessions| && t.sessions[k].gen == s.sessions[k].gen && t.cache.gen >= s.cache.gen
  {
    hide Put, AckedPrefix, Find;
  }

  lemma {:induction false} RunGenerations(s: State, actions: seq<Action>, k: nat)
    requires k < |s.sessions| && forall i | 0 <= i < |actions| :: !actions[i].RestartProcess?
    ensures var t := RunFrom(s, actions); k < |t.sessions| && t.sessions[k].gen == s.sessions[k].gen && t.cache.gen >= s.cache.gen
    decreases |actions|
  {
    hide Step;
    if actions != [] {
      RunGenerations(s, actions[..|actions| - 1], k);
      StepGenerations(RunFrom(s, actions[..|actions| - 1]), actions[|actions| - 1], k);
    }
  }

  /** After a tail reset no ack of a session opened before it changes the position, however late. */
  lemma ResetSilencesOldSessions(latest: bool, hasDurable: bool, durable: Option<nat>, before: seq<Action>, tail: nat, after: seq<Action>,
                                 k: nat, t: nat, durableWrites: bool)
    requires k < |RunFrom(Init(latest, hasDurable, durable), before).sessions|
    requires forall i | 0 <= i < |after| :: !after[i].RestartProcess?
    ensures var s := RunFrom(Step(RunFrom(Init(latest, hasDurable, durable), before), ResetToTail(tail)), after);
            k < |s.sessions| && DoAck(s, k, t, durableWrites).cache == s.cache
  {
    var s := RunFrom(Init(latest, hasDurable, durable), before);
    Reaches(latest, hasDurable, durable, before);
    SessionIs(s, k);
    hide Inv, SessionWell;
    var r := Step(s, ResetToTail(tail));
    RunGenerations(r, after, k);
    hide RunFrom, AckedPrefix, Put, Find;
  }

  /** Once every batch a current session delivered is acknowledged, in whatever order, the position is
      the end of what it delivered. */
  lemma LastAckSweepsAll(latest: bool, hasDurable: bool, durable: Option<nat>, actions: seq<Action>, k: nat, t: nat)
    requires var s := RunFrom(Init(latest, hasDurable, durable), actions);
             && k < |s.sessions| && t < |s.sessions[k].tickets| && !s.sessions[k].tickets[t].used && s.sessions[k].gen == s.cache.gen
             && forall i | 0 <= i < |s.sessions[k].entries| ::
                  s.sessions[k].entries[i].acked || s.sessions[k].entries[i].first == s.sessions[k].tickets[t].range.first
    ensures var s := RunFrom(Init(latest, hasDurable, durable), actions);
            var u := DoAck(s, k, t, true);
            && u.cache.mem == Some(s.sessions[k].next) && (hasDurable ==> u.cache.durable == u.cache.mem)
            && u.sessions[k].entries == []
  {
    hide Inv, RunFrom, SessionWell, DoAck;
    var s := RunFrom(Init(latest, hasDurable, durable), actions);
    Reaches(latest, hasDurable, durable, actions);
    SessionIs(s, k);
    SameSettings(Init(latest, hasDurable, durable), actions);
    SweepsAll(s, k, t);
  }

  lemma WholePrefix(x: Session, t: nat, acked: set<(nat, nat)>) returns (es: seq<Entry>)
    requires SessionWell(x, acked) && t < |x.tickets| && !x.tickets[t].used
    requires forall i | 0 <= i < |x.entries| :: x.entries[i].acked || x.entries[i].first == x.tickets[t].range.first
    ensures Mark(x.entries, x.tickets[t].range.first) == Some(es) && AckedPrefix(es) == |es| > 0 && es[|es| - 1].last + 1 == x.next
  {
    var i := MarkFinds(x, t, acked);
    es := x.entries[i := x.entries[i].(acked := true)];
    hide Mark, AllOpen, OneAnswer, EntriesAcked;
    forall j | 0 <= j < |es| ensures es[j].acked {
      if j < i { ChainOrdered(x.entries, x.swept, x.next, j, i); } else if i < j { ChainOrdered(x.entries, x.swept, x.next, i, j); }
    }
    PrefixMaximal(es, x.swept, x.next, 0);
  }

  lemma SweepsAll(s: State, k: nat, t: nat)
    requires k < |s.sessions| && SessionWell(s.sessions[k], s.past.acked) && s.sessions[k].gen == s.cache.gen
    requires t < |s.sessions[k].tickets| && !s.sessions[k].tickets[t].used
    requires forall i | 0 <= i < |s.sessions[k].entries| ::
               s.sessions[k].entries[i].acked || s.sessions[k].entries[i].first == s.sessions[k].tickets[t].range.first
    ensures var u := DoAck(s, k, t, true);
            && u.cache.mem == Some(s.sessions[k].next) && (s.hasDurable ==> u.cache.durable == u.cache.mem)
            && |u.sessions| == |s.sessions| && u.sessions[k].entries == []
  {
    hide SessionWell, Mark, AckedPrefix, Acknowledged;
    var es := WholePrefix(s.sessions[k], t, s.past.acked);
  }

  lemma StepSameSettings(s: State, a: Action)
    ensures Step(s, a).hasDurable == s.hasDurable && Step(s, a).latest == s.latest
  {
    hide Put, AckedPrefix, Find;
  }

  lemma {:induction false} SameSettings(s: State, actions: seq<Action>)
    ensures RunFrom(s, actions).hasDurable == s.hasDurable && RunFrom(s, actions).latest == s.latest
    decreases |actions|
  {
    hide Step;
    if actions != [] {
      SameSettings(s, actions[..|actions| - 1]);
      StepSameSettings(RunFrom(s, actions[..|actions| - 1]), actions[|actions| - 1]);
    }
  }
}
