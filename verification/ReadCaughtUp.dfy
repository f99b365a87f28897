/** What being caught up says about the server's tail, over every run of a read session. */
module ReadCaughtUp {
  import opened Options
  import opened Errors
  import opened Records
  import opened ReadSessions

  /** A batch that reaches the tail it reports: nothing lies between its last record and the tail. */
  predicate ReachesTail(records: seq<SequencedRecord>, tail: Option<Position>) {
    tail.Some? && (records != [] ==> records[|records| - 1].seqNum + 1 == tail.value.seqNum)
  }

  /** The tail reached by the latest batch read, unless that batch reached none or its attempt is over. */
  ghost function LatestTail(s: State, actions: seq<Action>): Option<Position>
    decreases |actions|
  {
    if actions == [] then None
    else
      var before, a := actions[..|actions| - 1], actions[|actions| - 1];
      if Run(s, before).reader.Idle? && a.Frame? then if ReachesTail(a.records, a.tail) then a.tail else None
      else if Run(s, before).reader.Idle? && a.Reconnect? then None
      else LatestTail(s, before)
  }

  /** No delivery on its way ends at a tail. */
  ghost predicate NoTails(s: State) {
    && (s.reader.Ready? ==> s.reader.d.tail.None?) && s.pendingTail.None?
    && (forall i | 0 <= i < |s.channel| :: s.channel[i].tail.None?)
  }

  /** The tail is where the latest delivery is: with the reader, in the channel, with `Next`, or taken. */
  ghost predicate Carried(s: State, tail: Option<Position>) {
    if s.reader.Ready? then s.reader.d.tail == tail
    else if s.channel != [] then s.channel[|s.channel| - 1].tail == tail
    else if s.pendingTail.Some? then s.pendingTail == tail
    else s.caught.tail == tail
  }

  ghost predicate Follows(s: State, latest: Option<Position>) {
    Running(s.reader) ==>
      && (latest.None? ==> s.caught.tail.None? && NoTails(s))
      && (latest.Some? ==> s.cursor == latest.value.seqNum && Carried(s, latest))
  }

  /** A reader that can read again has nothing ending at a tail on its way, and the session is not over. */
  lemma IdleFacts(s: State)
    requires Inv(s)
    ensures s.reader.Idle? ==> NoTails(s)
    ensures Running(s.reader) ==> s.caught.terminal.None?
    ensures s.pendingTail.Some? ==> s.channel == [] && s.pending != [] && !s.reader.Idle? && !s.reader.Ready?
    ensures forall i | 0 <= i < |s.channel| - 1 :: s.channel[i].tail.None?
  {
    hide Accounted, Conserved, FuturesSettleOnce, CaughtUpEmpty;
  }

  lemma FrameFollows(s: State, records: seq<SequencedRecord>, tail: Option<Position>)
    requires Inv(s) && s.reader.Idle?
    ensures Follows(Step(s, Frame(records, tail)), if ReachesTail(records, tail) then tail else None)
  {
    IdleFacts(s);
    hide Inv, Kept;
  }

  lemma ReconnectFollows(s: State)
    requires Inv(s) && s.reader.Idle?
    ensures Follows(Step(s, Reconnect), None)
  {
    IdleFacts(s);
    hide Inv;
  }

  lemma SendFollows(s: State, latest: Option<Position>)
    requires Inv(s) && Follows(s, latest)
    ensures Follows(Step(s, Send), latest)
  {
    hide Inv;
  }

  lemma ReceiveFollows(s: State, latest: Option<Position>)
    requires Inv(s) && Follows(s, latest)
    ensures Follows(Step(s, Receive), latest)
  {
    hide Inv, Stash, Carried, NoTails, ReachesTail;
    IdleFacts(s);
    if !s.closed && s.pending == [] && s.channel != [] {
      StashTail(s.(channel := s.channel[1..]), s.channel[0]);
      if Running(s.reader) { TakenTail(s, Stash(s.(channel := s.channel[1..]), s.channel[0]), latest); }
    }
  }

  /** What stashing a delivery does to its tail. */
  lemma StashTail(s: State, d: Delivery)
    requires Running(s.reader) ==> s.caught.terminal.None?
    ensures var t := Stash(s, d);
            && t.reader == s.reader && t.channel == s.channel && t.cursor == s.cursor
            && (d.records != [] ==> t.pendingTail == d.tail && t.caught == s.caught)
            && (d.records == [] ==> t.pendingTail.None? && (d.tail.None? ==> t.caught == s.caught))
            && (d.records == [] && d.tail.Some? && Running(s.reader) ==> t.caught.tail == d.tail)
  {
    hide SettleAll;
  }

  lemma TakenTail(s: State, t: State, latest: Option<Position>)
    requires Follows(s, latest) && s.channel != [] && Running(s.reader) && (s.pendingTail.Some? ==> s.channel == [])
    requires forall i | 0 <= i < |s.channel| - 1 :: s.channel[i].tail.None?
    requires t.reader == s.reader && t.channel == s.channel[1..] && t.cursor == s.cursor
    requires var d := s.channel[0];
             && (d.records != [] ==> t.pendingTail == d.tail && t.caught == s.caught)
             && (d.records == [] ==> t.pendingTail.None? && (d.tail.None? ==> t.caught == s.caught))
             && (d.records == [] && d.tail.Some? ==> t.caught.tail == d.tail)
    ensures Follows(t, latest)
  {
    assert forall i | 0 <= i < |t.channel| :: t.channel[i] == s.channel[i + 1];
  }

  lemma YieldFollows(s: State, latest: Option<Position>)
    requires Inv(s) && Follows(s, latest)
    ensures Follows(Step(s, Yield), latest)
  {
    IdleFacts(s);
    hide Inv;
  }

  lemma QuietFollows(s: State, a: Action, latest: Option<Position>)
    requires Inv(s) && Follows(s, latest)
    requires a.Resume? || a.Stop? || a.Abandon? || a.SendError? || a.CloseRecords? || a.CloseErrors? || a.ReceiveError? || a.ChannelEnds? || a.NewFuture?
             || (a.Reconnect? && !s.reader.Idle?) || (a.Frame? && !s.reader.Idle?)
    ensures Follows(Step(s, a), latest)
  {
    ClosedReader(s);
    hide Inv, End;
  }

  lemma ClosedReader(s: State)
    requires Inv(s)
    ensures s.channelClosed ==> !Running(s.reader)
  {
    hide Accounted, Conserved, FuturesSettleOnce, CaughtUpEmpty, ReaderWaits, Holding;
  }

  lemma {:induction false} RunFollows(ignoreCommands: bool, actions: seq<Action>)
    ensures Follows(Run(Init(ignoreCommands), actions), LatestTail(Init(ignoreCommands), actions))
    decreases |actions|
  {
    hide Inv, Step, Follows, ReachesTail;
    var init := Init(ignoreCommands);
    if actions == [] {
      NothingFollows(ignoreCommands);
    } else {
      var before, a := actions[..|actions| - 1], actions[|actions| - 1];
      var s, latest := Run(init, before), LatestTail(init, before);
      RunFollows(ignoreCommands, before);
      RunInv(ignoreCommands, before);
      match a
      case Frame(records, tail) => if s.reader.Idle? { FrameFollows(s, records, tail); } else { QuietFollows(s, a, latest); }
      case Reconnect => if s.reader.Idle? { ReconnectFollows(s); } else { QuietFollows(s, a, latest); }
      case Send => SendFollows(s, latest);
      case Receive => ReceiveFollows(s, latest);
      case Yield => YieldFollows(s, latest);
      case _ => QuietFollows(s, a, latest);
    }
  }

  lemma NothingFollows(ignoreCommands: bool)
    ensures Follows(Init(ignoreCommands), None)
  {
  }

  /** While the reader runs, a session is caught up only while the latest batch read reached the tail it
      reported, with nothing lost to a gap, a batch without a tail or a reconnect since. And once what was
      read is consumed, it is caught up exactly then, at that very tail, having read right up to it. */
  lemma CaughtUpIff(ignoreCommands: bool, actions: seq<Action>)
    requires Running(Run(Init(ignoreCommands), actions).reader)
    ensures var s := Run(Init(ignoreCommands), actions);
            var latest := LatestTail(Init(ignoreCommands), actions);
            && (s.caught.tail.Some? ==> latest.Some?)
            && (latest.Some? ==> s.cursor == latest.value.seqNum)
            && (!s.reader.Ready? && s.channel == [] && s.pending == [] ==>
                  s.caught.tail == latest && s.returned == Kept(ignoreCommands, s.fetched))
  {
    hide Inv, Kept, Run, LatestTail;
    var s := Run(Init(ignoreCommands), actions);
    RunFollows(ignoreCommands, actions);
    RunInv(ignoreCommands, actions);
    IdleFacts(s);
    assert Reachable(ignoreCommands, s);
    DeliversInOrder(ignoreCommands, s);
    assert s.returned + [] + [] == s.returned;
  }
}
