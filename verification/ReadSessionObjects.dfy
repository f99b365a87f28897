/** The objects behind a read session: `caughtUpState` with its futures and the consumer side of
    `ReadSession` (s2/read_session.go), each method tied to the state machine's functions. */
module ReadSessionObjects {
  import opened Options
  import opened Errors
  import opened Records
  import opened ReadSessions

  /** Futures are numbered; `settled` records what each one was given. */
  class CaughtUpState {
    var tail: Option<Position>
    var terminal: Option<Err>
    var pending: seq<nat>
    var settled: seq<seq<Settled>>

    ghost predicate Valid()
      reads this
    {
      && (forall i | 0 <= i < |pending| :: pending[i] < |settled|)
      && (forall i, j | 0 <= i < j < |pending| :: pending[i] != pending[j])
    }

    ghost function Abs(): CaughtUp
      reads this
    {
      CaughtUp(tail, terminal, pending, settled)
    }

    constructor ()
      ensures Valid() && Abs() == CaughtUp(None, None, [], [])
    {
      tail, terminal, pending, settled := None, None, [], [];
    }

    /** Gives every pending future its result. */
    method Settle(how: Settled)
      requires Valid()
      modifies this
      ensures Valid()
      ensures Abs() == old(Abs()).(pending := [], settled := SettleAll(old(settled), old(pending), how))
    {
      ghost var before := settled;
      for i := 0 to |pending|
        invariant pending == old(pending) && tail == old(tail) && terminal == old(terminal)
        invariant Valid()
        invariant settled == SettleAll(before, pending[..i], how)
      {
        assert pending[..i + 1] == pending[..i] + [pending[i]];
        assert pending[i] !in pending[..i];
        settled := settled[pending[i] := settled[pending[i]] + [how]];
      }
      assert pending[..|pending|] == pending;
      pending := [];
    }

    method SetCaughtUpTo(at: Position)
      requires Valid()
      modifies this
      ensures Valid() && Abs() == SetCaughtUp(old(Abs()), at)
    {
      if terminal.Some? { return; }
      tail := Some(at);
      Settle(CaughtUpAt(at));
    }

    method FallBehind()
      requires Valid()
      modifies this
      ensures Valid() && Abs() == SetBehind(old(Abs()))
    {
      if terminal.Some? { return; }
      tail := None;
    }

    method EndWith(err: Option<Err>)
      requires Valid()
      modifies this
      ensures Valid() && Abs() == End(old(Abs()), err)
    {
      if terminal.Some? { return; }
      var e := SessionClosed;
      if err.Some? {
        e := err.value;
        tail := None;
      }
      terminal := Some(e);
      Settle(EndedWith(e));
    }

    method NewFuture() returns (f: nat)
      requires Valid()
      modifies this
      ensures Valid() && Abs() == AddFuture(old(Abs()))
      ensures f == |old(settled)| < |settled|
    {
      f := |settled|;
      if tail.Some? {
        settled := settled + [[CaughtUpAt(tail.value)]];
        return;
      }
      if terminal.Some? {
        settled := settled + [[EndedWith(terminal.value)]];
        return;
      }
      pending := pending + [f];
      settled := settled + [[]];
    }
  }

  /** The consumer's view: its own fields and the two channels. Everything else, which only the
      reader goroutine changes, is in `others`. */
  class ReadSession {
    var channel: seq<Delivery>
    var channelClosed: bool
    var errorCh: Option<Err>
    var errorChClosed: bool
    var consumed: bool
    const caught: CaughtUpState
    var pending: seq<SequencedRecord>
    var pendingTail: Option<Position>
    var pendingNext: Option<Position>
    var current: Option<SequencedRecord>
    var position: Option<Position>
    var readerDone: bool
    var readerErr: Option<Err>
    var closed: bool
    var err: Option<Err>
    ghost var returned: seq<SequencedRecord>
    ghost const others: State

    constructor (ghost others: State)
      ensures Valid() && fresh(caught)
      ensures Abs() == Init(others.ignoreCommands).(reader := others.reader, fetched := others.fetched, cursor := others.cursor,
                                                    sentTo := others.sentTo, sent := others.sent, dropped := others.dropped, reason := others.reason)
    {
      channel, channelClosed, errorCh, errorChClosed, consumed := [], false, None, false, false;
      caught := new CaughtUpState();
      pending, pendingTail, pendingNext, current, position := [], None, None, None, None;
      readerDone, readerErr, closed, err := false, None, false, None;
      returned := [];
      this.others := others;
    }

    ghost predicate Valid()
      reads this, caught
    {
      caught.Valid() && (err.Some? ==> closed)
    }

    ghost function Abs(): (s: State)
      reads this, caught
      ensures s.closed == closed && s.pending == pending
    {
      others.(channel := channel, channelClosed := channelClosed, errorCh := errorCh, errorChClosed := errorChClosed,
              consumed := consumed, caught := caught.Abs(), pending := pending, pendingTail := pendingTail,
              pendingNext := pendingNext, position := position, readerDone := readerDone, readerErr := readerErr,
              closed := closed, err := err, returned := returned)
    }

    method FinishDelivery()
      requires Valid()
      modifies this, caught
      ensures Valid() && Abs() == Finish(old(Abs())) && current == old(current)
      ensures pending == old(pending) && returned == old(returned) && channel == old(channel) && closed == old(closed)
    {
      if pendingNext.Some? {
        position := pendingNext;
        pendingNext := None;
      }
      if pendingTail.Some? {
        caught.SetCaughtUpTo(pendingTail.value);
        pendingTail := None;
        consumed := true;
      }
    }

    method StashDelivery(d: Delivery)
      requires Valid()
      modifies this, caught
      ensures Valid() && Abs() == Stash(old(Abs()), d) && current == old(current)
      ensures pending == d.records && returned == old(returned) && channel == old(channel) && closed == old(closed)
    {
      pending, pendingTail, pendingNext := d.records, d.tail, Some(d.next);
      if |pending| == 0 { FinishDelivery(); }
    }

    method TakePending()
      requires Valid() && pending != []
      modifies this
      ensures Valid() && current == Some(old(pending)[0]) && returned == old(returned) + [old(pending)[0]]
      ensures pending == old(pending)[1..] && channel == old(channel) && closed == old(closed)
      ensures var r := old(pending)[0];
              Abs() == old(Abs()).(pending := old(pending)[1..], position := Some(Position(r.seqNum + 1, r.timestamp)),
                                   returned := old(returned) + [r])
    {
      current := Some(pending[0]);
      returned := returned + [pending[0]];
      position := Some(Position(pending[0].seqNum + 1, pending[0].timestamp));
      pending := pending[1..];
    }

    method YieldPending() returns (yielded: bool)
      requires Valid()
      modifies this, caught
      ensures Valid() && yielded == (old(pending) != []) && closed == old(closed) && channel == old(channel)
      ensures Abs() == if yielded then YieldOne(old(Abs())) else old(Abs())
      ensures if yielded then current == Some(old(pending)[0]) && returned == old(returned) + [old(pending)[0]]
              else returned == old(returned) && pending == []
    {
      hide Finish;
      if |pending| == 0 { return false; }
      TakePending();
      if |pending| == 0 { FinishDelivery(); }
      return true;
    }

    /** `Close`, reached at the end of the channel. */
    method CloseSession()
      requires Valid()
      modifies this, caught
      ensures Valid()
      ensures Abs() == old(Abs()).(closed := true, caught := if old(closed) then old(Abs()).caught else End(old(Abs()).caught, None))
    {
      if closed { return; }
      closed := true;
      caught.EndWith(None);
    }

    /** The end of the records channel: pick up an error still pending and close. */
    method FinishSession()
      requires Valid() && !closed && pending == [] && channel == [] && channelClosed
      modifies this, caught
      ensures Valid() && Abs() == Step(old(Abs()), ChannelEnds) && closed && returned == old(returned)
    {
      if !readerDone {
        readerErr := errorCh;
        errorCh := None;
      }
      CloseSession();
      err := readerErr;
    }

    predicate Parked()
      reads this
    {
      !closed && pending == [] && channel == [] && !channelClosed && (readerDone || (errorCh.None? && !errorChClosed))
    }

    method ReceiveDelivery()
      requires Valid() && !closed && pending == [] && channel != []
      modifies this, caught
      ensures Valid() && Abs() == Step(old(Abs()), Receive)
      ensures channel == old(channel)[1..] && pending == old(channel)[0].records && returned == old(returned) && !closed
    {
      hide Stash;
      var d := channel[0];
      channel := channel[1..];
      StashDelivery(d);
    }

    method ReceiveReaderError()
      requires Valid() && !closed && pending == [] && !readerDone && (errorCh.Some? || errorChClosed)
      modifies this
      ensures Valid() && Abs() == Step(old(Abs()), ReceiveError)
      ensures channel == old(channel) && pending == [] && returned == old(returned) && !closed && readerDone
    {
      readerDone := true;
      readerErr := errorCh;
      errorCh := None;
    }

    /** `Next` up to the point where it returns, or would park in its select (`None`); which of the
        ready channels the select takes is left open. */
    method Next() returns (more: Option<bool>, ghost done: seq<Action>)
      requires Valid()
      modifies this, caught
      ensures Valid() && Abs() == Run(old(Abs()), done)
      ensures forall a | a in done :: ByConsumer(a)
      ensures more == Some(true) ==> current.Some? && returned == old(returned) + [current.value]
      ensures more != Some(true) ==> returned == old(returned)
      ensures more == Some(false) ==> closed
      ensures more.None? ==> Parked()
    {
      hide Abs, Step, Run;
      done := [];
      ghost var start := Abs();
      RunNone(start);
      if err.Some? || closed { return Some(false), done; }
      var yielded := YieldPending();
      if yielded {
        YieldStep(start);
        done := RunMore(start, done, Yield);
        return Some(true), done;
      }
      while !Parked()
        invariant Valid() && !closed && pending == [] && returned == old(returned)
        invariant Abs() == Run(start, done)
        invariant forall a | a in done :: ByConsumer(a)
        decreases |channel|, !readerDone
      {
        if
        case channel != [] =>
          ReceiveDelivery();
          done := RunMore(start, done, Receive);
          ghost var s := Abs();
          yielded := YieldPending();
          if yielded {
            YieldStep(s);
            done := RunMore(start, done, Yield);
            return Some(true), done;
          }
        case channel == [] && channelClosed =>
          FinishSession();
          done := RunMore(start, done, ChannelEnds);
          return Some(false), done;
        case !readerDone && (errorCh.Some? || errorChClosed) =>
          ReceiveReaderError();
          done := RunMore(start, done, ReceiveError);
      }
      return None, done;
    }
  }

  predicate ByConsumer(a: Action) { a.Yield? || a.Receive? || a.ReceiveError? || a.ChannelEnds? }

  lemma RunNone(s: State)
    ensures Run(s, []) == s
  {
  }

  lemma YieldStep(s: State)
    requires !s.closed && s.pending != []
    ensures Step(s, Yield) == YieldOne(s)
  {
  }

  lemma RunMore(s: State, done: seq<Action>, a: Action) returns (more: seq<Action>)
    ensures more == done + [a] && Run(s, more) == Step(Run(s, done), a)
  {
    more := done + [a];
    assert more[..|more| - 1] == done;
  }
}
