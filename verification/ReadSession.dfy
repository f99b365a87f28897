/** The two ends of a read session: the reader goroutine fills a bounded channel, `Next` drains it,
    and both sides keep the caught-up state (s2/read_session.go, s2/read.go).

    Actions are the atomic regions of either side, in any interleaving. Early closing by the consumer
    is not an action; cancellation of the parent context is (`Abandon`).
 */
module ReadSessions {
  import opened Options
  import opened Errors
  import opened Records

  datatype Position = Position(seqNum: nat, timestamp: nat)

  const CHANNEL_CAPACITY: nat := 10

  datatype Delivery = Delivery(records: seq<SequencedRecord>, tail: Option<Position>, next: Position)

  datatype Settled = CaughtUpAt(tail: Position) | EndedWith(err: Err)

  /** `settled[f]` lists every time future `f` was settled. */
  datatype CaughtUp = CaughtUp(tail: Option<Position>, terminal: Option<Err>, pending: seq<nat>,
                               // history
                               settled: seq<seq<Settled>>)

  datatype ReaderAt = Idle | Ready(d: Delivery) | Waiting | Stopping(err: Option<Err>) | ErrorSent | RecordsClosed | Gone

  datatype State = State(
    ignoreCommands: bool,
    channel: seq<Delivery>, channelClosed: bool, errorCh: Option<Err>, errorChClosed: bool,
    consumed: bool,            // the consumed channel of the last caught-up delivery is closed
    reader: ReaderAt, caught: CaughtUp,
    pending: seq<SequencedRecord>, pendingTail: Option<Position>, pendingNext: Option<Position>,
    position: Option<Position>, readerDone: bool, readerErr: Option<Err>, closed: bool, err: Option<Err>,
    // history
    fetched: seq<SequencedRecord>,   // every record read, ignored ones included
    cursor: nat, sentTo: nat,        // read positions after the last batch read, the last delivery sent
    sent: seq<SequencedRecord>, dropped: seq<SequencedRecord>, returned: seq<SequencedRecord>,
    reason: Option<Err>)

  datatype Action =
    | Frame(records: seq<SequencedRecord>, tail: Option<Position>)
    | Send
    | Resume
    | Reconnect
    | Stop(why: Option<Err>)
    | Abandon
    | SendError
    | CloseRecords
    | CloseErrors
    | Yield
    | Receive
    | ReceiveError
    | ChannelEnds
    | NewFuture

  function Init(ignoreCommands: bool): State {
    State(ignoreCommands, [], false, None, false, false, Idle, CaughtUp(None, None, [], []),
          [], None, None, None, false, None, false, None, [], 0, 0, [], [], [], None)
  }

  /** The filter and what was fetched are as they were. */
  predicate SameSource(s: State, t: State) {
    t.ignoreCommands == s.ignoreCommands && t.fetched == s.fetched && t.cursor == s.cursor
  }

  // ---- caughtUpState ----

  function SettleAll(settled: seq<seq<Settled>>, who: seq<nat>, how: Settled): (r: seq<seq<Settled>>)
    ensures |r| == |settled|
  {
    seq(|settled|, i requires 0 <= i < |settled| => if i in who then settled[i] + [how] else settled[i])
  }

  function SetCaughtUp(c: CaughtUp, tail: Position): CaughtUp {
    if c.terminal.Some? then c
    else c.(tail := Some(tail), pending := [], settled := SettleAll(c.settled, c.pending, CaughtUpAt(tail)))
  }

  function SetBehind(c: CaughtUp): CaughtUp {
    if c.terminal.Some? then c else c.(tail := None)
  }

  /** `end`: a clean end keeps an observed tail. */
  function End(c: CaughtUp, err: Option<Err>): CaughtUp {
    if c.terminal.Some? then c
    else
      var e := if err.None? then SessionClosed else err.value;
      c.(tail := if err.None? then c.tail else None, terminal := Some(e), pending := [],
         settled := SettleAll(c.settled, c.pending, EndedWith(e)))
  }

  function AddFuture(c: CaughtUp): CaughtUp {
    if c.tail.Some? then c.(settled := c.settled + [[CaughtUpAt(c.tail.value)]])
    else if c.terminal.Some? then c.(settled := c.settled + [[EndedWith(c.terminal.value)]])
    else c.(pending := c.pending + [|c.settled|], settled := c.settled + [[]])
  }

  // ---- reader side ----

  predicate BatchCaughtUp(records: seq<SequencedRecord>, tail: Option<Position>) {
    tail.Some? && (records == [] || records[|records| - 1].seqNum + 1 == tail.value.seqNum)
  }

  /** The read position once the batch, with its filtered records, is consumed. */
  function BatchNext(records: seq<SequencedRecord>, tail: Option<Position>): Option<Position> {
    if records != [] then Some(Position(records[|records| - 1].seqNum + 1, records[|records| - 1].timestamp))
    else tail
  }

  /** Sequence numbers only go up, within a batch and from one batch to the next. */
  predicate InSequence(cursor: nat, records: seq<SequencedRecord>, tail: Option<Position>) {
    && (forall i | 0 <= i < |records| :: records[i].seqNum >= cursor)
    && (forall i, j | 0 <= i < j < |records| :: records[i].seqNum < records[j].seqNum)
    && (records == [] && tail.Some? ==> tail.value.seqNum >= cursor)
  }

  function Kept(ignoreCommands: bool, records: seq<SequencedRecord>): seq<SequencedRecord> {
    if ignoreCommands then WithoutCommands(records) else records
  }

  function DoFrame(s: State, records: seq<SequencedRecord>, tail: Option<Position>): (t: State)
    ensures t.ignoreCommands == s.ignoreCommands
  {
    if !s.reader.Idle? then s
    else
      var caughtUp := BatchCaughtUp(records, tail);
      var kept := Kept(s.ignoreCommands, records);
      var next := BatchNext(records, tail);
      var caught := if !caughtUp || kept != [] then SetBehind(s.caught) else s.caught;
      if next.None? then s.(caught := caught)
      else Fetch(s, caught, records, Delivery(kept, if caughtUp then tail else None, next.value))
  }

  function Fetch(s: State, caught: CaughtUp, records: seq<SequencedRecord>, d: Delivery): State {
    s.(caught := caught, reader := Ready(d), fetched := s.fetched + records, cursor := d.next.seqNum)
  }

  /** A frame leaves the reader running, and what it had to say about the end. */
  lemma FrameParts(s: State, records: seq<SequencedRecord>, tail: Option<Position>)
    ensures var t := DoFrame(s, records, tail);
            t.reason == s.reason && t.dropped == s.dropped && (t.reader == s.reader || (s.reader.Idle? && t.reader.Ready?))
  {
    hide Kept, BatchCaughtUp, SetBehind, BatchNext, Fetch;
    var caughtUp, kept, next := BatchCaughtUp(records, tail), Kept(s.ignoreCommands, records), BatchNext(records, tail);
    if next.Some? {
      FetchParts(s, if !caughtUp || kept != [] then SetBehind(s.caught) else s.caught, records,
                 Delivery(kept, if caughtUp then tail else None, next.value));
    }
  }

  lemma FetchParts(s: State, caught: CaughtUp, records: seq<SequencedRecord>, d: Delivery)
    ensures var t := Fetch(s, caught, records, d); t.reason == s.reason && t.dropped == s.dropped && t.reader == Ready(d)
  {
  }

  function DoSend(s: State): (t: State)
    ensures SameSource(s, t)
  {
    if !s.reader.Ready? || |s.channel| >= CHANNEL_CAPACITY then s
    else s.(channel := s.channel + [s.reader.d], sent := s.sent + s.reader.d.records, sentTo := s.reader.d.next.seqNum,
            consumed := false, reader := if s.reader.d.tail.Some? then Waiting else Idle)
  }

  /** The reader returns; a delivery it could not send is lost. */
  function DoStop(s: State, why: Option<Err>): (t: State)
    ensures SameSource(s, t)
  {
    s.(caught := End(s.caught, why), reader := Stopping(why), reason := why, dropped := Unsent(s))
  }

  function Unsent(s: State): seq<SequencedRecord> {
    if s.reader.Ready? then s.reader.d.records else s.dropped
  }

  // ---- consumer side ----

  /** `finishDelivery` */
  function Finish(s: State): (t: State)
    ensures SameSource(s, t)
  {
    s.(position := if s.pendingNext.Some? then s.pendingNext else s.position, pendingNext := None,
       caught := if s.pendingTail.Some? then SetCaughtUp(s.caught, s.pendingTail.value) else s.caught,
       consumed := s.consumed || s.pendingTail.Some?, pendingTail := None)
  }

  function Stash(s: State, d: Delivery): (t: State)
    ensures SameSource(s, t)
  {
    var s1 := s.(pending := d.records, pendingTail := d.tail, pendingNext := Some(d.next));
    if d.records == [] then Finish(s1) else s1
  }

  function YieldOne(s: State): (t: State)
    requires s.pending != []
    ensures SameSource(s, t)
  {
    var r := s.pending[0];
    var s1 := s.(pending := s.pending[1..], position := Some(Position(r.seqNum + 1, r.timestamp)), returned := s.returned + [r]);
    if s1.pending == [] then Finish(s1) else s1
  }

  function DoChannelEnds(s: State): (t: State)
    ensures SameSource(s, t)
  {
    if s.closed || s.pending != [] || s.channel != [] || !s.channelClosed then s
    else
      var e := if s.readerDone then s.readerErr else s.errorCh;
      s.(readerErr := e, errorCh := if s.readerDone then s.errorCh else None, err := e, closed := true, caught := End(s.caught, None))
  }

  function Step(s: State, a: Action): State {
    match a
    case Frame(records, tail) => DoFrame(s, records, tail)
    case Send => DoSend(s)
    case Resume => if s.reader.Waiting? && s.consumed then s.(reader := Idle) else s
    case Reconnect => if s.reader.Idle? then s.(caught := SetBehind(s.caught)) else s
    case Stop(why) => if s.reader.Idle? then DoStop(s, why) else s
    case Abandon => if s.reader.Idle? || s.reader.Ready? || s.reader.Waiting? then DoStop(s, None) else s
    case SendError => if s.reader.Stopping? then s.(errorCh := s.reader.err, reader := ErrorSent) else s
    case CloseRecords => if s.reader.ErrorSent? then s.(channelClosed := true, reader := RecordsClosed) else s
    case CloseErrors => if s.reader.RecordsClosed? then s.(errorChClosed := true, reader := Gone) else s
    case Yield => if s.closed || s.pending == [] then s else YieldOne(s)
    case Receive => if s.closed || s.pending != [] || s.channel == [] then s
                    else Stash(s.(channel := s.channel[1..]), s.channel[0])
    case ReceiveError => if s.closed || s.pending != [] || s.readerDone || (s.errorCh.None? && !s.errorChClosed) then s
                         else s.(readerDone := true, readerErr := s.errorCh, errorCh := None)
    case ChannelEnds => DoChannelEnds(s)
    case NewFuture => s.(caught := AddFuture(s.caught))
  }

  function Run(s: State, actions: seq<Action>): State
    decreases |actions|
  {
    if actions == [] then s else Step(Run(s, actions[..|actions| - 1]), actions[|actions| - 1])
  }

  // ---- invariants ----

  function Buffered(channel: seq<Delivery>): seq<SequencedRecord>
    decreases |channel|
  {
    if channel == [] then [] else channel[0].records + Buffered(channel[1..])
  }

  /** `rs` are in order and lie in [lo, hi). */
  ghost predicate Between(lo: nat, rs: seq<SequencedRecord>, hi: nat) {
    && lo <= hi
    && (forall i, j | 0 <= i < j < |rs| :: rs[i].seqNum < rs[j].seqNum)
    && (forall i | 0 <= i < |rs| :: lo <= rs[i].seqNum < hi)
  }

  /** From position `lo` on, the deliveries follow one another up to `hi`. */
  ghost predicate Chained(lo: nat, channel: seq<Delivery>, hi: nat)
    decreases |channel|
  {
    if channel == [] then lo == hi
    else Between(lo, channel[0].records, channel[0].next.seqNum) && Chained(channel[0].next.seqNum, channel[1..], hi)
  }

  /** What was fetched is what was sent and what could not be sent. */
  ghost predicate Accounted(ignore: bool, fetched: seq<SequencedRecord>, sent: seq<SequencedRecord>, unsent: seq<SequencedRecord>) {
    Kept(ignore, fetched) == sent + unsent
  }

  /** What was sent is what was returned, then what `Next` holds, then what is in the channel. */
  ghost predicate Conserved(sent: seq<SequencedRecord>, returned: seq<SequencedRecord>,
                            pending: seq<SequencedRecord>, channel: seq<Delivery>) {
    sent == returned + pending + Buffered(channel)
  }

  function At(position: Option<Position>): nat { if position.Some? then position.value.seqNum else 0 }

  /** The end of what has been taken out of the channel. */
  function Taken(position: Option<Position>, pendingNext: Option<Position>): nat {
    if pendingNext.Some? then pendingNext.value.seqNum else At(position)
  }

  /** Returned records lie behind the position, the rest of what was taken ahead of it. */
  ghost predicate ConsumerExact(returned: seq<SequencedRecord>, position: nat, pending: seq<SequencedRecord>, taken: nat) {
    Between(0, returned, position) && Between(position, pending, taken)
  }

  ghost predicate ReaderExact(sentTo: nat, unsent: seq<SequencedRecord>, cursor: nat, reader: ReaderAt) {
    && Between(sentTo, unsent, cursor)
    && (reader.Ready? ==> reader.d.next.seqNum == cursor)
  }

  /** `Next` holds the rest of a delivery exactly while it has records to return. */
  ghost predicate Holding(pending: seq<SequencedRecord>, pendingNext: Option<Position>, pendingTail: Option<Position>) {
    && (pending != [] <==> pendingNext.Some?)
    && (pendingTail.Some? ==> pending != [])
  }

  predicate Running(reader: ReaderAt) { reader.Idle? || reader.Ready? || reader.Waiting? }

  ghost predicate TailLast(channel: seq<Delivery>) {
    forall i | 0 <= i < |channel| && channel[i].tail.Some? :: i == |channel| - 1
  }

  /** A caught-up delivery is the last thing in flight: the reader waits for it. */
  ghost predicate ReaderWaits(channel: seq<Delivery>, pendingTail: Option<Position>, reader: ReaderAt, consumed: bool) {
    && TailLast(channel)
    && (pendingTail.Some? ==> channel == [])
    && (pendingTail.Some? || (channel != [] && channel[|channel| - 1].tail.Some?) ==>
          !consumed && !reader.Idle? && !reader.Ready?)
  }

  ghost predicate NoRecords(channel: seq<Delivery>) {
    forall i | 0 <= i < |channel| :: channel[i].records == []
  }

  /** Being caught up means that no record is buffered or about to be. */
  ghost predicate CaughtUpEmpty(tail: Option<Position>, pending: seq<SequencedRecord>, channel: seq<Delivery>, reader: ReaderAt) {
    tail.Some? ==> pending == [] && NoRecords(channel) && (reader.Ready? ==> reader.d.records == [])
  }

  ghost predicate FuturesSettleOnce(c: CaughtUp) {
    && (forall f | 0 <= f < |c.settled| :: |c.settled[f]| <= 1)
    && (forall f | 0 <= f < |c.settled| :: f in c.pending <==> c.settled[f] == [])
    && (forall i | 0 <= i < |c.pending| :: c.pending[i] < |c.settled|)
    && (c.terminal.Some? || c.tail.Some? ==> c.pending == [])
  }

  /** The stages of the reader's end, and what `Next` may report. */
  ghost predicate EndingAgrees(s: State) {
    && (s.channelClosed <==> s.reader.RecordsClosed? || s.reader.Gone?)
    && (s.errorChClosed <==> s.reader.Gone?)
    && (s.caught.terminal.None? <==> Running(s.reader))
    && (s.dropped != [] ==> !Running(s.reader))
    && (s.reader.Stopping? ==> s.reader.err == s.reason && s.errorCh.None? && !s.readerDone)
    && (Running(s.reader) ==> s.reason.None? && s.errorCh.None? && !s.readerDone)
    && (s.reader.ErrorSent? || s.reader.RecordsClosed? || s.reader.Gone? ==>
          if s.readerDone then s.readerErr == s.reason && s.errorCh.None?
          else if s.closed then s.errorCh.None? else s.errorCh == s.reason)
    && (s.closed ==> s.channelClosed && s.channel == [] && s.pending == [] && s.err == s.reason)
  }

  ghost predicate Inv(s: State) {
    && Accounted(s.ignoreCommands, s.fetched, s.sent, Unsent(s))
    && Conserved(s.sent, s.returned, s.pending, s.channel)
    && Holding(s.pending, s.pendingNext, s.pendingTail)
    && ReaderWaits(s.channel, s.pendingTail, s.reader, s.consumed)
    && CaughtUpEmpty(s.caught.tail, s.pending, s.channel, s.reader)
    && FuturesSettleOnce(s.caught)
    && EndingAgrees(s)
  }

  /** With sequence numbers that only go up: what was returned lies behind the position, and everything
      else ahead of it, up to where the reader has read. */
  ghost predicate Ordered(s: State) {
    && ConsumerExact(s.returned, At(s.position), s.pending, Taken(s.position, s.pendingNext))
    && Chained(Taken(s.position, s.pendingNext), s.channel, s.sentTo)
    && ReaderExact(s.sentTo, Unsent(s), s.cursor, s.reader)
  }

  // ---- every step keeps the invariant ----

  lemma FuturesKept(c: CaughtUp, tail: Position, err: Option<Err>)
    requires FuturesSettleOnce(c)
    ensures FuturesSettleOnce(SetCaughtUp(c, tail))
    ensures FuturesSettleOnce(SetBehind(c))
    ensures FuturesSettleOnce(End(c, err))
    ensures FuturesSettleOnce(AddFuture(c))
  {
    var d := AddFuture(c);
    forall f | 0 <= f < |d.settled| ensures f in d.pending <==> d.settled[f] == [] {
      if f < |c.settled| { assert f in d.pending <==> f in c.pending; }
    }
  }

  lemma {:induction false} BufferedSend(channel: seq<Delivery>, d: Delivery)
    ensures Buffered(channel + [d]) == Buffered(channel) + d.records
    decreases |channel|
  {
    var c := channel + [d];
    if channel == [] {
      assert c[1..] == [];
    } else {
      assert c[1..] == channel[1..] + [d];
      BufferedSend(channel[1..], d);
    }
  }

  lemma FrameAccounts(ignore: bool, fetched: seq<SequencedRecord>, sent: seq<SequencedRecord>, records: seq<SequencedRecord>)
    requires Accounted(ignore, fetched, sent, [])
    ensures Accounted(ignore, fetched + records, sent, Kept(ignore, records))
  {
    WithoutCommandsAppend(fetched, records);
  }

  lemma FrameCaughtUp(s: State, kept: seq<SequencedRecord>, d: Delivery)
    requires s.reader.Idle? && d.records == kept
    requires CaughtUpEmpty(s.caught.tail, s.pending, s.channel, s.reader) && ReaderWaits(s.channel, s.pendingTail, s.reader, s.consumed)
    ensures CaughtUpEmpty(None, s.pending, s.channel, Ready(d)) && CaughtUpEmpty(None, s.pending, s.channel, s.reader)
    ensures kept == [] ==> CaughtUpEmpty(s.caught.tail, s.pending, s.channel, Ready(d))
    ensures ReaderWaits(s.channel, s.pendingTail, Ready(d), s.consumed)
  {
  }

  lemma FrameInv(s: State, records: seq<SequencedRecord>, tail: Option<Position>)
    requires Inv(s)
    ensures Inv(DoFrame(s, records, tail))
  {
    hide Accounted, Conserved, Holding, FuturesSettleOnce, Kept, CaughtUpEmpty, ReaderWaits, BatchCaughtUp, BatchNext;
    if s.reader.Idle? {
      FuturesKept(s.caught, Position(0, 0), None);
      var kept := Kept(s.ignoreCommands, records);
      FrameCaughtUp(s, kept, Delivery(kept, None, Position(0, 0)));
      if BatchNext(records, tail).Some? {
        FrameAccounts(s.ignoreCommands, s.fetched, s.sent, records);
        FrameCaughtUp(s, kept, Delivery(kept, if BatchCaughtUp(records, tail) then tail else None, BatchNext(records, tail).value));
      }
    }
  }

  lemma SendConserves(sent: seq<SequencedRecord>, returned: seq<SequencedRecord>, pending: seq<SequencedRecord>,
                      channel: seq<Delivery>, d: Delivery)
    requires Conserved(sent, returned, pending, channel)
    ensures Conserved(sent + d.records, returned, pending, channel + [d])
  {
    BufferedSend(channel, d);
  }

  lemma SendAccounts(s: State)
    requires s.reader.Ready? && Accounted(s.ignoreCommands, s.fetched, s.sent, s.reader.d.records)
    ensures Accounted(s.ignoreCommands, s.fetched, s.sent + s.reader.d.records, [])
  {
    assert s.sent + s.reader.d.records + [] == s.sent + s.reader.d.records;
  }

  lemma SendWaits(s: State)
    requires s.reader.Ready? && ReaderWaits(s.channel, s.pendingTail, s.reader, s.consumed)
    ensures ReaderWaits(s.channel + [s.reader.d], s.pendingTail, if s.reader.d.tail.Some? then Waiting else Idle, false)
  {
  }

  lemma SendInv(s: State)
    requires Inv(s)
    ensures Inv(DoSend(s))
  {
    hide Accounted, Conserved, Holding, FuturesSettleOnce, ReaderWaits;
    if s.reader.Ready? && |s.channel| < CHANNEL_CAPACITY {
      SendConserves(s.sent, s.returned, s.pending, s.channel, s.reader.d);
      SendAccounts(s);
      SendWaits(s);
    }
  }

  lemma StopInv(s: State, why: Option<Err>)
    requires Inv(s) && Running(s.reader)
    ensures Inv(DoStop(s, why))
  {
    hide Accounted, Conserved, Holding, FuturesSettleOnce, TailLast, NoRecords;
    FuturesKept(s.caught, Position(0, 0), why);
  }

  /** `Finish`, once the last record of a delivery is out. */
  lemma FinishInv(s: State)
    requires s.pending == [] && s.pendingNext.Some? && !s.closed
    requires Accounted(s.ignoreCommands, s.fetched, s.sent, Unsent(s))
    requires Conserved(s.sent, s.returned, s.pending, s.channel)
    requires ReaderWaits(s.channel, s.pendingTail, s.reader, s.consumed)
    requires CaughtUpEmpty(s.caught.tail, s.pending, s.channel, s.reader)
    requires FuturesSettleOnce(s.caught)
    requires EndingAgrees(s)
    ensures Inv(Finish(s))
  {
    hide Accounted, Conserved, FuturesSettleOnce, TailLast;
    if s.pendingTail.Some? { FuturesKept(s.caught, s.pendingTail.value, None); }
  }

  lemma PopWaits(s: State)
    requires s.channel != [] && ReaderWaits(s.channel, None, s.reader, s.consumed)
    ensures ReaderWaits(s.channel[1..], s.channel[0].tail, s.reader, s.consumed)
  {
  }

  lemma PopCaughtUp(s: State)
    requires s.channel != [] && CaughtUpEmpty(s.caught.tail, s.pending, s.channel, s.reader)
    ensures CaughtUpEmpty(s.caught.tail, s.channel[0].records, s.channel[1..], s.reader)
  {
  }

  lemma PopConserves(s: State)
    requires s.channel != [] && Conserved(s.sent, s.returned, [], s.channel)
    ensures Conserved(s.sent, s.returned, s.channel[0].records, s.channel[1..])
  {
    assert s.returned + [] == s.returned;
  }

  lemma ReceiveInv(s: State)
    requires Inv(s) && !s.closed && s.pending == [] && s.channel != []
    ensures Inv(Stash(s.(channel := s.channel[1..]), s.channel[0]))
  {
    hide Accounted, Conserved, FuturesSettleOnce, ReaderWaits, CaughtUpEmpty, Finish;
    PopWaits(s);
    PopCaughtUp(s);
    PopConserves(s);
    var d := s.channel[0];
    if d.records == [] {
      FinishInv(s.(channel := s.channel[1..], pending := d.records, pendingTail := d.tail, pendingNext := Some(d.next)));
    }
  }

  lemma YieldConserves(s: State)
    requires s.pending != [] && Conserved(s.sent, s.returned, s.pending, s.channel)
    ensures Conserved(s.sent, s.returned + [s.pending[0]], s.pending[1..], s.channel)
  {
    assert s.returned + s.pending == s.returned + [s.pending[0]] + s.pending[1..];
  }

  lemma YieldInv(s: State)
    requires Inv(s) && !s.closed && s.pending != []
    ensures Inv(YieldOne(s))
  {
    hide Accounted, Conserved, FuturesSettleOnce, ReaderWaits, Finish;
    YieldConserves(s);
    var r := s.pending[0];
    if |s.pending| == 1 {
      FinishInv(s.(pending := s.pending[1..], position := Some(Position(r.seqNum + 1, r.timestamp)), returned := s.returned + [r]));
    }
  }

  lemma EndsInv(s: State)
    requires Inv(s)
    ensures Inv(DoChannelEnds(s))
  {
    hide Accounted, Conserved, FuturesSettleOnce, Holding, ReaderWaits, CaughtUpEmpty;
    assert s.channelClosed ==> End(s.caught, None) == s.caught;
  }

  /** The steps that only move the reader on, and the remaining ones of the consumer. */
  lemma QuietInv(s: State, a: Action)
    requires Inv(s)
    requires a.Resume? || a.Reconnect? || a.SendError? || a.CloseRecords? || a.CloseErrors? || a.ReceiveError? || a.NewFuture?
    ensures Inv(Step(s, a))
  {
    hide Accounted, Conserved, FuturesSettleOnce, Holding, TailLast, NoRecords;
    FuturesKept(s.caught, Position(0, 0), None);
  }

  lemma StepInv(s: State, a: Action)
    requires Inv(s)
    ensures Inv(Step(s, a))
  {
    hide Inv, DoFrame, DoSend, DoStop, Stash, YieldOne, DoChannelEnds;
    match a
    case Frame(records, tail) => FrameInv(s, records, tail);
    case Send => SendInv(s);
    case Stop(why) => if s.reader.Idle? { StopInv(s, why); }
    case Abandon => if Running(s.reader) { StopInv(s, None); }
    case Yield => if !s.closed && s.pending != [] { YieldInv(s); }
    case Receive => if !s.closed && s.pending == [] && s.channel != [] { ReceiveInv(s); }
    case ChannelEnds => EndsInv(s);
    case _ => QuietInv(s, a);
  }

  lemma InitInv(ignoreCommands: bool)
    ensures Inv(Init(ignoreCommands)) && Ordered(Init(ignoreCommands))
  {
  }

  lemma {:induction false} RunInv(ignoreCommands: bool, actions: seq<Action>)
    ensures Inv(Run(Init(ignoreCommands), actions))
    decreases |actions|
  {
    hide Inv, Step;
    if actions == [] {
      InitInv(ignoreCommands);
    } else {
      RunInv(ignoreCommands, actions[..|actions| - 1]);
      StepInv(Run(Init(ignoreCommands), actions[..|actions| - 1]), actions[|actions| - 1]);
    }
  }

  // ---- with sequence numbers that only go up ----

  lemma {:induction false} KeptInside(ignore: bool, lo: nat, rs: seq<SequencedRecord>, hi: nat)
    requires Between(lo, rs, hi)
    ensures Between(lo, Kept(ignore, rs), hi)
    decreases |rs|
  {
    if ignore && rs != [] {
      var last := rs[|rs| - 1];
      KeptInside(ignore, lo, rs[..|rs| - 1], last.seqNum);
    }
  }

  lemma {:induction false} ChainedSend(lo: nat, channel: seq<Delivery>, mid: nat, d: Delivery)
    requires Chained(lo, channel, mid) && Between(mid, d.records, d.next.seqNum)
    ensures Chained(lo, channel + [d], d.next.seqNum)
    decreases |channel|
  {
    var c := channel + [d];
    if channel == [] {
      assert c[1..] == [];
    } else {
      assert c[1..] == channel[1..] + [d];
      ChainedSend(channel[0].next.seqNum, channel[1..], mid, d);
    }
  }

  lemma FrameExact(ignore: bool, s: State, records: seq<SequencedRecord>, tail: Option<Position>)
    requires ReaderExact(s.sentTo, [], s.cursor, s.reader)
    requires InSequence(s.cursor, records, tail) && BatchNext(records, tail).Some?
    ensures var next := BatchNext(records, tail).value;
            forall t: Option<Position> :: ReaderExact(s.sentTo, Kept(ignore, records), next.seqNum, Ready(Delivery(Kept(ignore, records), t, next)))
  {
    KeptInside(ignore, s.cursor, records, BatchNext(records, tail).value.seqNum);
  }

  lemma SendExact(s: State)
    requires s.reader.Ready? && Chained(Taken(s.position, s.pendingNext), s.channel, s.sentTo)
    requires ReaderExact(s.sentTo, s.reader.d.records, s.cursor, s.reader)
    ensures Chained(Taken(s.position, s.pendingNext), s.channel + [s.reader.d], s.reader.d.next.seqNum)
    ensures ReaderExact(s.reader.d.next.seqNum, [], s.cursor, Idle) && ReaderExact(s.reader.d.next.seqNum, [], s.cursor, Waiting)
  {
    ChainedSend(Taken(s.position, s.pendingNext), s.channel, s.sentTo, s.reader.d);
  }

  lemma PopExact(s: State)
    requires s.channel != [] && s.pending == [] && s.pendingNext.None?
    requires ConsumerExact(s.returned, At(s.position), s.pending, Taken(s.position, s.pendingNext))
    requires Chained(Taken(s.position, s.pendingNext), s.channel, s.sentTo)
    ensures ConsumerExact(s.returned, At(s.position), s.channel[0].records, s.channel[0].next.seqNum)
    ensures Chained(s.channel[0].next.seqNum, s.channel[1..], s.sentTo)
  {
  }

  lemma YieldExact(s: State)
    requires s.pending != [] && s.pendingNext.Some?
    requires ConsumerExact(s.returned, At(s.position), s.pending, s.pendingNext.value.seqNum)
    ensures ConsumerExact(s.returned + [s.pending[0]], s.pending[0].seqNum + 1, s.pending[1..], s.pendingNext.value.seqNum)
  {
  }

  /** The frame that the reader takes up continues the ones before. */
  ghost predicate Continues(s: State, a: Action) {
    a.Frame? && s.reader.Idle? ==> InSequence(s.cursor, a.records, a.tail)
  }

  ghost predicate InSequenceRun(s: State, actions: seq<Action>)
    decreases |actions|
  {
    actions != [] ==>
      var before := actions[..|actions| - 1];
      InSequenceRun(s, before) && Continues(Run(s, before), actions[|actions| - 1])
  }

  lemma FrameOrdered(s: State, records: seq<SequencedRecord>, tail: Option<Position>)
    requires Inv(s) && Ordered(s) && s.reader.Idle? && InSequence(s.cursor, records, tail)
    ensures Ordered(DoFrame(s, records, tail))
  {
    hide ConsumerExact, Chained, ReaderExact, Kept, BatchCaughtUp, BatchNext, Accounted, Conserved, ReaderWaits, CaughtUpEmpty, FuturesSettleOnce, Holding, InSequence;
    if BatchNext(records, tail).Some? { FrameExact(s.ignoreCommands, s, records, tail); }
  }

  lemma SendOrdered(s: State)
    requires Inv(s) && Ordered(s)
    ensures Ordered(DoSend(s))
  {
    hide ConsumerExact, Chained, ReaderExact, Accounted, Conserved, ReaderWaits, CaughtUpEmpty, FuturesSettleOnce, Holding;
    if s.reader.Ready? { SendExact(s); }
  }

  lemma FinishOrdered(s: State)
    requires Ordered(s) && s.pending == []
    ensures Ordered(Finish(s))
  {
    hide Chained, SetCaughtUp;
  }

  lemma ReceiveOrdered(s: State)
    requires Inv(s) && Ordered(s) && s.pending == [] && s.channel != []
    ensures Ordered(Stash(s.(channel := s.channel[1..]), s.channel[0]))
  {
    hide ConsumerExact, Chained, ReaderExact, Accounted, Conserved, ReaderWaits, CaughtUpEmpty, FuturesSettleOnce, Finish;
    PopExact(s);
    var d := s.channel[0];
    if d.records == [] {
      FinishOrdered(s.(channel := s.channel[1..], pending := d.records, pendingTail := d.tail, pendingNext := Some(d.next)));
    }
  }

  lemma YieldOrdered(s: State)
    requires Inv(s) && Ordered(s) && s.pending != []
    ensures Ordered(YieldOne(s))
  {
    hide ConsumerExact, Chained, ReaderExact, Accounted, Conserved, ReaderWaits, CaughtUpEmpty, FuturesSettleOnce, Finish;
    YieldExact(s);
    var r := s.pending[0];
    if |s.pending| == 1 {
      FinishOrdered(s.(pending := s.pending[1..], position := Some(Position(r.seqNum + 1, r.timestamp)), returned := s.returned + [r]));
    }
  }

  lemma StopOrdered(s: State, why: Option<Err>)
    requires Ordered(s)
    ensures Ordered(DoStop(s, why))
  {
    hide ConsumerExact, Chained, End, Between;
  }

  lemma QuietOrdered(s: State, a: Action)
    requires Inv(s) && Ordered(s)
    requires a.Resume? || a.Reconnect? || a.SendError? || a.CloseRecords? || a.CloseErrors? || a.ReceiveError? || a.NewFuture? || a.ChannelEnds?
    ensures Ordered(Step(s, a))
  {
    hide ConsumerExact, Chained, Between, Accounted, Conserved, ReaderWaits, CaughtUpEmpty, FuturesSettleOnce, Holding, End, SetBehind, AddFuture;
  }

  lemma StepOrdered(s: State, a: Action)
    requires Inv(s) && Ordered(s) && Continues(s, a)
    ensures Ordered(Step(s, a))
  {
    hide Inv, Ordered, DoFrame, DoSend, DoStop, Stash, YieldOne, DoChannelEnds, InSequence;
    match a
    case Frame(records, tail) => if s.reader.Idle? { FrameOrdered(s, records, tail); } else { NoFrame(s, records, tail); }
    case Send => SendOrdered(s);
    case Stop(why) => if s.reader.Idle? { StopOrdered(s, why); }
    case Abandon => StopOrdered(s, None);
    case Yield => if !s.closed && s.pending != [] { YieldOrdered(s); }
    case Receive => if !s.closed && s.pending == [] && s.channel != [] { ReceiveOrdered(s); }
    case _ => QuietOrdered(s, a);
  }

  lemma NoFrame(s: State, records: seq<SequencedRecord>, tail: Option<Position>)
    requires !s.reader.Idle?
    ensures DoFrame(s, records, tail) == s
  {
  }

  lemma {:induction false} RunOrdered(ignoreCommands: bool, actions: seq<Action>)
    requires InSequenceRun(Init(ignoreCommands), actions)
    ensures Ordered(Run(Init(ignoreCommands), actions))
    decreases |actions|
  {
    hide Inv, Ordered, Step, Continues;
    if actions == [] {
      InitInv(ignoreCommands);
    } else {
      RunOrdered(ignoreCommands, actions[..|actions| - 1]);
      RunInv(ignoreCommands, actions[..|actions| - 1]);
      StepOrdered(Run(Init(ignoreCommands), actions[..|actions| - 1]), actions[|actions| - 1]);
    }
  }

  // ---- what a session promises ----

  /** `s` is a state that a session can get into. */
  ghost predicate Reachable(ignoreCommands: bool, s: State) {
    exists actions :: s == Run(Init(ignoreCommands), actions)
  }

  lemma ReachableInv(ignoreCommands: bool, s: State)
    requires Reachable(ignoreCommands, s)
    ensures Inv(s) && s.ignoreCommands == ignoreCommands
  {
    hide Inv, Run;
    var actions :| s == Run(Init(ignoreCommands), actions);
    RunInv(ignoreCommands, actions);
    SameFilter(Init(ignoreCommands), actions);
  }

  /** Whatever the interleaving, what `Next` returned, holds and has still to receive is what the
      reader sent, in order; a delivery is lost only when the reader is cancelled holding it. */
  lemma DeliversInOrder(ignoreCommands: bool, s: State)
    requires Reachable(ignoreCommands, s)
    ensures && s.sent == s.returned + s.pending + Buffered(s.channel)
            && Kept(ignoreCommands, s.fetched) == s.sent + Unsent(s)
            && (Running(s.reader) && !s.reader.Ready? ==> s.sent == Kept(ignoreCommands, s.fetched))
  {
    hide Inv, Reachable;
    ReachableInv(ignoreCommands, s);
    InvDelivers(s);
  }

  /** Only a frame changes what was fetched. */
  lemma StepSameSource(s: State, a: Action)
    ensures Step(s, a).ignoreCommands == s.ignoreCommands
    ensures !a.Frame? ==> SameSource(s, Step(s, a))
  {
    hide DoFrame, DoSend, Stash, YieldOne;
    match a
    case Frame(records, tail) => FrameSameFilter(s, records, tail);
    case Send => SendSameSource(s);
    case Receive => ReceiveSameSource(s);
    case Yield => YieldSameSource(s);
    case _ => QuietSameSource(s, a);
  }

  lemma FrameSameFilter(s: State, records: seq<SequencedRecord>, tail: Option<Position>)
    ensures DoFrame(s, records, tail).ignoreCommands == s.ignoreCommands
  {
    hide WithoutCommands, SetBehind;
  }

  lemma SendSameSource(s: State)
    ensures SameSource(s, DoSend(s)) && SameSource(s, s)
  {
  }

  lemma ReceiveSameSource(s: State)
    ensures SameSource(s, Step(s, Receive))
  {
    hide Finish;
    if s.channel != [] {
      var d := s.channel[0];
      FinishSameSource(s.(channel := s.channel[1..], pending := d.records, pendingTail := d.tail, pendingNext := Some(d.next)));
    }
  }

  lemma FinishSameSource(s: State)
    ensures SameSource(s, Finish(s))
  {
    hide SetCaughtUp;
  }

  lemma YieldSameSource(s: State)
    ensures SameSource(s, Step(s, Yield))
  {
    hide Finish;
    if s.pending != [] {
      var r := s.pending[0];
      FinishSameSource(s.(pending := s.pending[1..], position := Some(Position(r.seqNum + 1, r.timestamp)), returned := s.returned + [r]));
    }
  }

  lemma QuietSameSource(s: State, a: Action)
    requires !a.Frame? && !a.Send? && !a.Receive? && !a.Yield?
    ensures SameSource(s, Step(s, a))
  {
    hide SetBehind, AddFuture, End;
  }

  lemma {:induction false} SameFilter(s: State, actions: seq<Action>)
    ensures Run(s, actions).ignoreCommands == s.ignoreCommands
    decreases |actions|
  {
    hide Step;
    if actions != [] {
      SameFilter(s, actions[..|actions| - 1]);
      StepSameSource(Run(s, actions[..|actions| - 1]), actions[|actions| - 1]);
    }
  }

  lemma InvDelivers(s: State)
    requires Inv(s)
    ensures s.sent == s.returned + s.pending + Buffered(s.channel)
    ensures Kept(s.ignoreCommands, s.fetched) == s.sent + Unsent(s)
    ensures Running(s.reader) && !s.reader.Ready? ==> s.sent == Kept(s.ignoreCommands, s.fetched)
  {
    hide ReaderWaits, CaughtUpEmpty, Holding, FuturesSettleOnce;
    assert s.sent + [] == s.sent;
  }

  /** `Next` ends only after returning everything sent, and reports how the reader ended. */
  lemma EndsAfterAllRecords(ignoreCommands: bool, s: State)
    requires Reachable(ignoreCommands, s)
    ensures s.closed ==> s.returned == s.sent && s.err == s.reason && s.channelClosed
  {
    hide Inv, Reachable;
    ReachableInv(ignoreCommands, s);
    if s.closed { InvEnds(s); }
  }

  lemma InvEnds(s: State)
    requires Inv(s) && s.closed
    ensures s.returned == s.sent && s.err == s.reason && s.channelClosed
  {
    hide Accounted, ReaderWaits, CaughtUpEmpty, Holding, FuturesSettleOnce;
    assert s.returned + [] + [] == s.returned;
  }

  /** `s` can be reached with frames whose sequence numbers only go up. */
  ghost predicate ReachableInSequence(ignoreCommands: bool, s: State) {
    exists actions :: InSequenceRun(Init(ignoreCommands), actions) && s == Run(Init(ignoreCommands), actions)
  }

  /** Then resuming at `NextReadPosition` reads exactly the records `Next` has not returned: those held,
      buffered, unsent or dropped, ignored command records apart. */
  lemma PositionSplits(ignoreCommands: bool, s: State, i: nat)
    requires ReachableInSequence(ignoreCommands, s) && i < |Kept(ignoreCommands, s.fetched)|
    ensures var all := Kept(ignoreCommands, s.fetched);
            && |s.returned| <= |all| && all[..|s.returned|] == s.returned
            && (all[i].seqNum < At(s.position) <==> i < |s.returned|)
  {
    hide Inv, Ordered, Kept, Run, InSequenceRun;
    var actions :| InSequenceRun(Init(ignoreCommands), actions) && s == Run(Init(ignoreCommands), actions);
    RunInv(ignoreCommands, actions);
    SameFilter(Init(ignoreCommands), actions);
    RunOrdered(ignoreCommands, actions);
    InvSplits(s, i);
  }

  lemma InvSplits(s: State, i: nat)
    requires Inv(s) && Ordered(s) && i < |Kept(s.ignoreCommands, s.fetched)|
    ensures var all := Kept(s.ignoreCommands, s.fetched);
            && |s.returned| <= |all| && all[..|s.returned|] == s.returned
            && (all[i].seqNum < At(s.position) <==> i < |s.returned|)
  {
    hide Kept, WithoutCommands, Chained, EndingAgrees, ReaderWaits, CaughtUpEmpty, Holding, FuturesSettleOnce;
    ChainedAbove(Taken(s.position, s.pendingNext), s.channel, s.sentTo);
    var all := Kept(s.ignoreCommands, s.fetched);
    var rest := s.pending + Buffered(s.channel) + Unsent(s);
    assert all == s.returned + rest;
    if i >= |s.returned| {
      var k := i - |s.returned|;
      assert all[i] == rest[k];
      assert rest[k] in s.pending || rest[k] in Buffered(s.channel) || rest[k] in Unsent(s);
    }
  }

  lemma {:induction false} ChainedAbove(lo: nat, channel: seq<Delivery>, hi: nat)
    requires Chained(lo, channel, hi)
    ensures lo <= hi
    ensures forall r | r in Buffered(channel) :: lo <= r.seqNum
    decreases |channel|
  {
    if channel != [] { ChainedAbove(channel[0].next.seqNum, channel[1..], hi); }
  }

  /** A future settles at most once, and has settled once the session is over; while the session is
      caught up nothing is held, buffered or about to be sent. */
  lemma CaughtUpMeansDrained(ignoreCommands: bool, s: State)
    requires Reachable(ignoreCommands, s)
    ensures && (forall f | 0 <= f < |s.caught.settled| :: |s.caught.settled[f]| <= 1)
            && (!Running(s.reader) ==> forall f | 0 <= f < |s.caught.settled| :: |s.caught.settled[f]| == 1)
            && (s.caught.tail.Some? ==> s.pending == [] && Buffered(s.channel) == [] && (s.reader.Ready? ==> s.reader.d.records == []))
            && (s.caught.tail.Some? && Running(s.reader) && !s.reader.Ready? ==> s.returned == Kept(ignoreCommands, s.fetched))
  {
    hide Inv, Reachable;
    DeliversInOrder(ignoreCommands, s);
    ReachableInv(ignoreCommands, s);
    InvCaughtUp(s);
    assert s.returned + [] + [] == s.returned;
  }

  lemma InvCaughtUp(s: State)
    requires Inv(s)
    ensures forall f | 0 <= f < |s.caught.settled| :: |s.caught.settled[f]| <= 1
    ensures !Running(s.reader) ==> forall f | 0 <= f < |s.caught.settled| :: |s.caught.settled[f]| == 1
    ensures s.caught.tail.Some? ==> s.pending == [] && Buffered(s.channel) == [] && (s.reader.Ready? ==> s.reader.d.records == [])
  {
    hide Kept, WithoutCommands, ReaderWaits, Holding, Accounted, Conserved;
    if s.caught.tail.Some? { NothingBuffered(s.channel); }
  }

  lemma {:induction false} NothingBuffered(channel: seq<Delivery>)
    requires NoRecords(channel)
    ensures Buffered(channel) == []
    decreases |channel|
  {
    if channel != [] { NothingBuffered(channel[1..]); }
  }
}
