/** What the two ends of a read session do with a delivery, with their futures and at the end, from
    conditions on the state before. */
module ReadDecisions {
  import opened Options
  import opened Errors
  import opened Records
  import opened ReadSessions
  import opened ReadCaughtUp

  // ---- deliveries ----

  /** A delivery is sent as soon as the channel has room for it; the reader then waits if it reaches the
      tail, until `Next` has taken all of it. */
  lemma SendDecides(s: State)
    ensures var t := Step(s, Send);
            if s.reader.Ready? && |s.channel| < 10
            then t.channel == s.channel + [s.reader.d] && t.sent == s.sent + s.reader.d.records
                 && (if s.reader.d.tail.Some? then t.reader.Waiting? && !t.consumed else t.reader.Idle?)
            else t == s
    ensures var t := Step(s, Resume); t == if s.reader.Waiting? && s.consumed then s.(reader := Idle) else s
  {
  }

  /** `Next` takes the oldest delivery when it holds none, and otherwise returns the first record it holds;
      the position is then behind that record, and behind the delivery once all of it is taken. */
  lemma NextDecides(s: State)
    ensures var t := Step(s, Receive);
            if !s.closed && s.pending == [] && s.channel != []
            then t.channel == s.channel[1..] && t.pending == s.channel[0].records && t.returned == s.returned
                 && (s.channel[0].records == [] ==> t.position == Some(s.channel[0].next))
            else t == s
    ensures var t := Step(s, Yield);
            if !s.closed && s.pending != []
            then t.returned == s.returned + [s.pending[0]] && t.pending == s.pending[1..] && t.channel == s.channel
                 && (|s.pending| > 1 ==> t.position == Some(Position(s.pending[0].seqNum + 1, s.pending[0].timestamp)))
                 && (|s.pending| == 1 && s.pendingNext.Some? ==> t.position == s.pendingNext)
            else t == s
  {
    hide SetCaughtUp;
  }

  /** `Next` ends exactly when the channel is closed and everything is taken, with the reader's own reason. */
  lemma EndDecides(ignoreCommands: bool, s: State)
    requires Reachable(ignoreCommands, s)
    ensures var t := Step(s, ChannelEnds);
            if !s.closed && s.pending == [] && s.channel == [] && s.channelClosed
            then t.closed && t.err == s.reason && t.returned == s.returned else t == s
    ensures s.reader.Stopping? ==>
              var t := Step(Step(Step(s, SendError), CloseRecords), CloseErrors);
              t.reader.Gone? && t.channelClosed && t.errorChClosed && t.errorCh == s.reason
  {
    hide Reachable;
    ReachableInv(ignoreCommands, s);
    EndingKnown(s);
    hide Inv, End;
  }

  lemma EndingKnown(s: State)
    requires Inv(s)
    ensures s.reader.Stopping? ==> s.reader.err == s.reason
    ensures s.channelClosed && !s.closed ==> s.reason == if s.readerDone then s.readerErr else s.errorCh
  {
    hide Accounted, Conserved, ReaderWaits, CaughtUpEmpty, Holding, FuturesSettleOnce;
  }

  // ---- futures and the end ----

  /** All futures that were pending got `how`; the others keep what they had. */
  ghost predicate AllSettled(c: CaughtUp, d: CaughtUp, how: Settled) {
    && d.pending == [] && |d.settled| == |c.settled|
    && forall f | 0 <= f < |c.settled| :: d.settled[f] == if c.settled[f] == [] then [how] else c.settled[f]
  }

  /** Taking the last record of a delivery that reaches the tail settles every pending future with it. */
  lemma TakenTailSettles(ignoreCommands: bool, s: State)
    requires Reachable(ignoreCommands, s) && !s.closed && |s.pending| == 1 && s.pendingTail.Some? && Running(s.reader)
    ensures var t := Step(s, Yield);
            t.caught.tail == s.pendingTail && t.consumed && AllSettled(s.caught, t.caught, CaughtUpAt(s.pendingTail.value))
  {
    hide Reachable;
    ReachableInv(ignoreCommands, s);
    IdleFacts(s);
    FuturesKnown(s);
    hide Inv;
  }

  lemma FuturesKnown(s: State)
    requires Inv(s)
    ensures forall f | 0 <= f < |s.caught.settled| :: f in s.caught.pending <==> s.caught.settled[f] == []
    ensures s.caught.tail.Some? || s.caught.terminal.Some? ==> s.caught.pending == []
  {
    hide Accounted, Conserved, ReaderWaits, CaughtUpEmpty, Holding, EndingAgrees;
  }

  /** The end of the reader settles every pending future with its error, or with "closed"; a clean end
      keeps the tail it was caught up at, an error forgets it. */
  lemma StopSettles(ignoreCommands: bool, s: State, why: Option<Err>)
    requires Reachable(ignoreCommands, s) && s.reader.Idle?
    ensures var t := Step(s, Stop(why));
            var e := if why.None? then SessionClosed else why.value;
            && t.reader == Stopping(why) && t.reason == why && t.caught.terminal == Some(e)
            && t.caught.tail == (if why.None? then s.caught.tail else None) && AllSettled(s.caught, t.caught, EndedWith(e))
  {
    hide Reachable;
    ReachableInv(ignoreCommands, s);
    IdleFacts(s);
    FuturesKnown(s);
    hide Inv;
  }

  /** A new future is settled at once when the answer is known: the tail first, then the end. */
  lemma FutureDecides(ignoreCommands: bool, s: State)
    requires Reachable(ignoreCommands, s)
    ensures var t := Step(s, NewFuture);
            var n := |s.caught.settled|;
            && |t.caught.settled| == n + 1 && t.caught.settled[..n] == s.caught.settled
            && t.caught.settled[n] == (if s.caught.tail.Some? then [CaughtUpAt(s.caught.tail.value)]
                                       else if s.caught.terminal.Some? then [EndedWith(s.caught.terminal.value)] else [])
            && t.caught.tail == s.caught.tail && t.caught.terminal == s.caught.terminal
  {
  }
}
