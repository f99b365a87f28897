/** Ack attribution under a server that acknowledges each transport's writes in order. */
module AppendServer {
  import opened Options
  import opened Errors
  import opened Capacity
  import opened AppendModel
  import opened AppendInvariant
  import opened AppendSteps
  import opened AppendTheorems

  /** An ack comes from the transport in use, answers its next unanswered write with that write's
      record count, and ends beyond every ack before it. */
  predicate LegalAck(s: State, t: nat, ack: Option<Ack>) {
    && s.current == Some(t) && IsTransport(s, t) && ack.Some?
    && s.transports[t].acks < |s.transports[t].written|
    && s.transports[t].written[s.transports[t].acks] < |s.accepted|
    && ack.value.end == ack.value.start + s.accepted[s.transports[t].written[s.transports[t].acks]].count
    && (s.lastAck.Some? ==> ack.value.end > s.lastAck.value.end)
  }

  predicate Legal(s: State, a: Action) {
    a.AckArrives? ==> LegalAck(s, a.transport, a.ack)
  }

  ghost predicate LegalRun(s: State, actions: seq<Action>) {
    forall k | 0 <= k < |actions| :: Legal(Run(s, actions[..k]), actions[k])
  }

  function Ids(q: seq<Entry>): (r: seq<nat>)
    ensures |r| == |q|
  {
    seq(|q|, i requires 0 <= i < |q| => q[i].id)
  }

  function FirstUnwritten(q: seq<Entry>, t: nat): (i: nat)
    ensures i <= |q|
    ensures forall j | 0 <= j < i :: t in q[j].writtenOn
    ensures i < |q| ==> t !in q[i].writtenOn
  {
    if q == [] || t !in q[0].writtenOn then 0 else 1 + FirstUnwritten(q[1..], t)
  }

  lemma {:induction false} FirstUnwrittenIs(q: seq<Entry>, t: nat, i: nat)
    requires i <= |q| && (forall j | 0 <= j < i :: t in q[j].writtenOn) && (i < |q| ==> t !in q[i].writtenOn)
    ensures FirstUnwritten(q, t) == i
  {
    if i > 0 { FirstUnwrittenIs(q[1..], t, i - 1); }
  }

  /** The unanswered writes of `t` are the queue's entries written on it, in order. */
  ghost predicate Owes(tr: Transport, q: seq<Entry>, t: nat) {
    tr.acks <= |tr.written| && tr.written[tr.acks..] == Ids(q[..FirstUnwritten(q, t)])
  }

  ghost predicate Queued(q: seq<Entry>, id: nat) { exists i :: 0 <= i < |q| && q[i].id == id }

  ghost predicate AckTracks(s: State) {
    !s.closed && s.current.Some? ==>
      && IsTransport(s, s.current.value) && Owes(s.transports[s.current.value], s.queue, s.current.value)
      && (s.writing.Some? ==> Queued(s.queue, s.writing.value.id))
  }

  lemma QueuedMore(q: seq<Entry>, e: Entry, id: nat)
    requires Queued(q, id)
    ensures Queued(q + [e], id)
  {
    var i :| 0 <= i < |q| && q[i].id == id;
    assert (q + [e])[i].id == id;
  }

  lemma OwesAppend(tr: Transport, q: seq<Entry>, e: Entry, t: nat)
    requires Owes(tr, q, t) && t !in e.writtenOn
    ensures Owes(tr, q + [e], t)
  {
    var i := FirstUnwritten(q, t);
    FirstUnwrittenIs(q + [e], t, i);
    assert (q + [e])[..i] == q[..i];
  }

  /** Two queues with the same ids and writes owe the same. */
  lemma OwesSame(tr: Transport, q: seq<Entry>, r: seq<Entry>, t: nat)
    requires Owes(tr, q, t) && |r| == |q| && forall i | 0 <= i < |q| :: r[i].id == q[i].id && (t in r[i].writtenOn <==> t in q[i].writtenOn)
    ensures Owes(tr, r, t)
    ensures forall id | Queued(q, id) :: Queued(r, id)
  {
    var i := FirstUnwritten(q, t);
    FirstUnwrittenIs(r, t, i);
    assert Ids(r[..i]) == Ids(q[..i]);
    forall id | Queued(q, id) ensures Queued(r, id) {
      var k :| 0 <= k < |q| && q[k].id == id;
      assert r[k].id == id;
    }
  }

  /** The entry being written is the first not written on its transport. */
  lemma WritingIsNext(s: State, i: nat)
    requires Inv(s) && s.writing.Some? && i < |s.queue| && s.queue[i].id == s.writing.value.id
    ensures s.writing.value.transport < |s.transports| && FirstUnwritten(s.queue, s.writing.value.transport) == i
    ensures i + 1 < |s.queue| ==> s.writing.value.transport !in s.queue[i + 1].writtenOn
  {
    hide AcksIncrease, RetiredOnce, RefsExact, UnusedClosed, WritesCounted, EarlierFailedCleanly, DoubtTracked, CapacityExact, WritingClean, LateWell;
    var t := s.writing.value.transport;
    assert t in s.queue[i].sentOn;
    assert t in s.queue[i].writtenOn <==> s.queue[i].id in Logs(s.transports)[t];
    FirstUnwrittenIs(s.queue, t, i);
  }

  lemma OwesOneMore(tr: Transport, us: Transport, q: seq<Entry>, r: seq<Entry>, t: nat, i: nat)
    requires Owes(tr, q, t) && i < |q| && FirstUnwritten(q, t) == i && (i + 1 < |q| ==> t !in q[i + 1].writtenOn)
    requires |r| == |q| && forall j | 0 <= j < |q| :: r[j].id == q[j].id && (t in r[j].writtenOn <==> t in q[j].writtenOn || j == i)
    requires us.acks == tr.acks && us.written == tr.written + [q[i].id]
    ensures Owes(us, r, t)
  {
    FirstUnwrittenIs(r, t, i + 1);
    assert Ids(r[..i + 1]) == Ids(q[..i]) + [q[i].id];
    assert us.written[us.acks..] == tr.written[tr.acks..] + [q[i].id];
  }

  lemma OwesWrite(s: State)
    requires Inv(s) && s.writing.Some? && Queued(s.queue, s.writing.value.id) && IsTransport(s, s.writing.value.transport)
    requires Owes(s.transports[s.writing.value.transport], s.queue, s.writing.value.transport)
    ensures var s' := LogWrite(s); Owes(s'.transports[s.writing.value.transport], s'.queue, s.writing.value.transport)
  {
    hide Inv, Owes, InOrder, WrittenTo, LogWrite, SentPrefix, WrittenSent;
    var w := s.writing.value;
    var i :| 0 <= i < |s.queue| && s.queue[i].id == w.id;
    WritingIsNext(s, i);
    InvParts(s);
    WrittenToShape(s, w);
    LogOne(s);
    OwesOneMore(s.transports[w.transport], LogWrite(s).transports[w.transport], s.queue, WrittenTo(s.queue, w), w.transport, i);
  }

  lemma LogOne(s: State)
    requires s.writing.Some? && IsTransport(s, s.writing.value.transport)
    ensures var w := s.writing.value;
            && LogWrite(s).queue == WrittenTo(s.queue, w) && |LogWrite(s).transports| == |s.transports|
            && LogWrite(s).transports[w.transport].acks == s.transports[w.transport].acks
            && LogWrite(s).transports[w.transport].written == s.transports[w.transport].written + [w.id]
  {
    hide WrittenTo, RetiredUncleanly;
  }

  /** A legal ack finds its entry at the head of the queue. */
  lemma OwesHead(tr: Transport, q: seq<Entry>, t: nat)
    requires Owes(tr, q, t) && tr.acks < |tr.written|
    ensures q != [] && t in q[0].writtenOn && q[0].id == tr.written[tr.acks]
  {
    assert tr.written[tr.acks..][0] == tr.written[tr.acks];
    assert Ids(q[..FirstUnwritten(q, t)])[0] == q[0].id;
  }

  lemma OwesPop(tr: Transport, us: Transport, q: seq<Entry>, t: nat)
    requires Owes(tr, q, t) && tr.acks < |tr.written|
    requires us.written == tr.written && us.acks == tr.acks + 1
    ensures q != [] && Owes(us, q[1..], t)
  {
    OwesHead(tr, q, t);
    var i := FirstUnwritten(q, t);
    assert i >= 1;
    FirstUnwrittenIs(q[1..], t, i - 1);
    assert q[1..][..i - 1] == q[..i][1..];
    assert Ids(q[1..][..i - 1]) == Ids(q[..i])[1..];
    assert us.written[us.acks..] == tr.written[tr.acks..][1..];
  }

  /** The head that an ack answers is not the entry still being written. */
  lemma QueuedPop(s: State, t: nat)
    requires Inv(s) && s.writing.Some? && s.writing.value.transport == t && s.queue != [] && t in s.queue[0].writtenOn
    requires Queued(s.queue, s.writing.value.id)
    ensures Queued(s.queue[1..], s.writing.value.id)
  {
    hide Inv;
    var i :| 0 <= i < |s.queue| && s.queue[i].id == s.writing.value.id;
    WritingIsNext(s, i);
    assert i > 0;
    assert s.queue[1..][i - 1].id == s.writing.value.id;
  }

  /** What a legal ack does while the session is up: it resolves the entry of the write it answers. */
  lemma LegalAckAccepted(s: State, t: nat, ack: Option<Ack>)
    requires InOrder(s.accepted, s.resolutions, s.queue) && AckTracks(s) && !s.closed && LegalAck(s, t, ack)
    requires forall i, u: nat | 0 <= i < |s.queue| && u in s.queue[i].writtenOn :: u in s.queue[i].sentOn
    ensures s.queue != [] && s.queue[0].id == s.transports[t].written[s.transports[t].acks] && t in s.queue[0].writtenOn
    ensures DoAck(s, t, ack) == AcceptAck(CountAck(s, t), t, ack.value)
  {
    OwesHead(s.transports[t], s.queue, t);
    assert s.queue[0].input == s.accepted[s.queue[0].id];
  }

  lemma TracksAck(s: State, t: nat, ack: Option<Ack>)
    requires Inv(s) && AckTracks(s) && !s.closed && LegalAck(s, t, ack)
    ensures AckTracks(DoAck(s, t, ack))
  {
    hide Inv, ValidAck, StaleAck;
    InvParts(s);
    LegalAckAccepted(s, t, ack);
    var s' := AcceptAck(CountAck(s, t), t, ack.value);
    OwesPop(s.transports[t], s'.transports[t], s.queue, t);
    if s.writing.Some? { QueuedPop(s, t); }
  }

  lemma TracksOpen(s: State)
    requires CanOpen(s) && s.writing.None? && forall i, u: nat | 0 <= i < |s.queue| && u in s.queue[i].writtenOn :: u < |s.transports|
    ensures AckTracks(DoOpen(s, None))
  {
    FirstUnwrittenIs(s.queue, |s.transports|, 0);
  }

  /** Steps that leave the current transport's log and the queue alone. */
  lemma TracksFrame(s: State, s': State)
    requires AckTracks(s) && s'.queue == s.queue && (s'.closed <== s.closed) && (s'.writing == s.writing || s'.writing.None?)
    requires s'.current == s.current || s'.current.None?
    requires |s'.transports| == |s.transports|
    requires forall t | 0 <= t < |s.transports| ::
               s'.transports[t].written == s.transports[t].written && s'.transports[t].acks == s.transports[t].acks
    ensures AckTracks(s')
  {
  }

  lemma TracksEnqueue(s: State, k: nat)
    requires AckTracks(s)
    ensures AckTracks(DoEnqueue(s, k))
  {
    if k < |s.reserved| && !s.closing && !s.closed && s.current.Some? {
      var e := Entry(|s.accepted|, s.reserved[k], false, [], false, []);
      OwesAppend(s.transports[s.current.value], s.queue, e, s.current.value);
      if s.writing.Some? { QueuedMore(s.queue, e, s.writing.value.id); }
    }
  }

  lemma TracksMark(s: State)
    requires AckTracks(s)
    ensures AckTracks(DoMark(s))
  {
    hide Owes;
    if CanMark(s) && !s.closed && s.current.Some? {
      var c := s.current.value;
      var s' := DoMark(s);
      var i := FirstUnsent(s.queue, s.pass.value);
      OwesSame(s.transports[c], s.queue, s'.queue, c);
      assert s'.queue[i].id == s'.writing.value.id;
    }
  }

  lemma TracksStop(s: State)
    requires AckTracks(s)
    ensures AckTracks(StopPass(s))
  {
    hide Owes;
  }

  lemma TracksWrite(s: State)
    requires Inv(s) && AckTracks(s) && s.writing.Some? && IsTransport(s, s.writing.value.transport)
    ensures AckTracks(LogWrite(s))
  {
    hide Inv, Owes;
    InvParts(s);
    LogFrame(s);
    if !s.closed && s.current.Some? { OwesWrite(s); }
  }

  lemma TracksFinish(s: State, w: Write)
    requires Inv(s) && AckTracks(s)
    ensures AckTracks(DoFinishWrite(s, w))
  {
    hide Inv, AckTracks, TransportErr, SessionError, LogWrite, StopPass;
    if s.writing.Some? && IsTransport(s, s.writing.value.transport) {
      TracksWrite(s);
      TracksStop(s);
      TracksStop(LogWrite(s));
      if !w.Written? {
        TracksErrors(StopPass(s), s.writing.value.transport, w.err);
        TracksErrors(StopPass(LogWrite(s)), s.writing.value.transport, w.err);
      }
    }
  }

  lemma TracksErrors(s: State, t: nat, err: Err)
    requires AckTracks(s)
    ensures AckTracks(SessionError(s, t, err))
  {
    hide Owes;
  }

  lemma TracksEnd(s: State, t: nat)
    requires AckTracks(s)
    ensures AckTracks(DoEndCleanly(s, t))
  {
    hide AckTracks, HasUnacked, SessionError, RetireCurrent, CloseIfUnused;
    TracksErrors(s, t, Plain("append session ended before acknowledging all appends"));
    TracksRetire(s, MovedOnAdvice, [], t);
  }

  lemma TracksRetire(s: State, cause: Cause, claims: seq<Claim>, t: nat)
    requires AckTracks(s)
    ensures AckTracks(CloseIfUnused(s, t))
    ensures s.current.Some? && IsTransport(s, s.current.value) ==> AckTracks(RetireCurrent(s, cause, claims))
  {
    TracksClose(s, t);
    hide Owes, CloseIfUnused;
    if s.current.Some? && IsTransport(s, s.current.value) {
      var c := s.current.value;
      var tr := s.transports[c];
      var s1 := s.(current := None, pending := s.pending + claims, transports := s.transports[c := tr.(retirements := tr.retirements + [cause])]);
      TracksClose(s1, c);
    }
  }

  lemma TracksClose(s: State, t: nat)
    requires AckTracks(s)
    ensures AckTracks(CloseIfUnused(s, t))
  {
    hide Owes, AckTracks;
    TracksFrame(s, CloseIfUnused(s, t));
  }

  lemma TracksTimeOut(s: State)
    requires AckTracks(s)
    ensures AckTracks(DoTimeOut(s))
  {
    hide Owes;
  }

  lemma InvParts(s: State)
    requires Inv(s)
    ensures InOrder(s.accepted, s.resolutions, s.queue)
    ensures forall i, u: nat | 0 <= i < |s.queue| && u in s.queue[i].writtenOn :: u in s.queue[i].sentOn && u < |s.transports|
    ensures s.pending != [] ==> s.current.None?
    ensures s.closed ==> s.queue == []
    ensures s.writing.Some? ==> s.pass == Some(s.writing.value.transport) && (s.current.Some? ==> s.current == s.pass)
  {
  }

  lemma TracksFlags(s: State, a: Action)
    requires AckTracks(s)
    requires a.Reserve? || a.BeginPass? || a.EndPass? || a.CancelContext? || a.CloseStarts? || a.PumpDrains?
    ensures AckTracks(Step(s, a))
  {
    hide AckTracks, TryReserve, Release, Owes;
    TracksFrame(s, Step(s, a));
  }

  lemma TracksPlain(s: State, a: Action)
    requires AckTracks(s)
    requires a.Advise? || a.AnswerAdvice? || a.TransportCloses?
    ensures AckTracks(Step(s, a))
  {
    hide AckTracks, Owes;
    TracksFrame(s, Step(s, a));
  }

  lemma TracksStep(s: State, a: Action)
    requires Inv(s) && AckTracks(s) && Legal(s, a)
    ensures AckTracks(Step(s, a))
  {
    hide Inv, AckTracks, LegalAck, Step;
    match a
    case Enqueue(_) => TracksPump(s, a);
    case Open(_) => TracksPump(s, a);
    case Mark => TracksPump(s, a);
    case FinishWrite(_) => TracksPump(s, a);
    case AckArrives(t, ack) =>
      AckStep(s, t, ack);
      if s.closed { TracksClosed(s, t, ack); } else { TracksAck(s, t, ack); }
    case EndCleanly(_) => TracksFailure(s, a);
    case TransportFails(_, _) => TracksFailure(s, a);
    case TimeOut => TracksFailure(s, a);
    case Resolve => TracksFailure(s, a);
    case PumpStops => TracksFailure(s, a);
    case CloseEnds => TracksFailure(s, a);
    case Advise(_) => TracksPlain(s, a);
    case AnswerAdvice(_, _) => TracksPlain(s, a);
    case TransportCloses(_) => TracksPlain(s, a);
    case _ => TracksFlags(s, a);
  }

  lemma AckStep(s: State, t: nat, ack: Option<Ack>)
    ensures Step(s, AckArrives(t, ack)) == DoAck(s, t, ack)
    ensures Legal(s, AckArrives(t, ack)) ==> LegalAck(s, t, ack)
  {
    hide DoAck, LegalAck;
  }

  lemma TracksPump(s: State, a: Action)
    requires Inv(s) && AckTracks(s) && (a.Enqueue? || a.Open? || a.Mark? || a.FinishWrite?)
    ensures AckTracks(Step(s, a))
  {
    hide Inv;
    InvParts(s);
    hide InOrder, AckTracks, DoEnqueue, DoOpen, DoMark, DoFinishWrite;
    match a
    case Enqueue(k) => TracksEnqueue(s, k);
    case Open(failure) => TracksOpens(s, failure);
    case Mark => TracksMark(s);
    case FinishWrite(w) => TracksFinish(s, w);
  }

  lemma TracksFailure(s: State, a: Action)
    requires Inv(s) && AckTracks(s)
    requires a.EndCleanly? || a.TransportFails? || a.TimeOut? || a.Resolve? || a.PumpStops? || a.CloseEnds?
    ensures AckTracks(Step(s, a))
  {
    hide Inv, InOrder, AckTracks, Step;
    InvParts(s);
    FailureStep(s, a);
    match a
    case EndCleanly(t) => TracksEnd(s, t);
    case TransportFails(t, err) => TracksErrors(s, t, err);
    case TimeOut => TracksTimeOut(s);
    case Resolve => TracksResolve(s);
    case PumpStops => TracksFailed(s, SessionClosed);
    case CloseEnds => TracksCloseEnds(s);
  }

  lemma FailureStep(s: State, a: Action)
    ensures match a
            case EndCleanly(t) => Step(s, a) == DoEndCleanly(s, t)
            case TransportFails(t, err) => Step(s, a) == s || Step(s, a) == SessionError(s, t, err)
            case TimeOut => Step(s, a) == DoTimeOut(s)
            case Resolve => Step(s, a) == DoResolve(s)
            case PumpStops => Step(s, a) == s || Step(s, a) == FailAll(s, SessionClosed)
            case CloseEnds => Step(s, a) == DoCloseEnds(s)
            case _ => true
  {
    hide TransportErr, FailAll, SessionError, DoEndCleanly, DoTimeOut, DoResolve, DoCloseEnds, RetireCurrent, CloseIfUnused;
  }

  lemma TracksFailed(s: State, err: Err)
    ensures AckTracks(FailAll(s, err))
  {
  }

  lemma TracksClosed(s: State, t: nat, ack: Option<Ack>)
    requires s.closed
    ensures AckTracks(DoAck(s, t, ack))
  {
    hide ValidAck, StaleAck, Owes;
  }

  lemma TracksCloseEnds(s: State)
    requires AckTracks(s)
    ensures AckTracks(DoCloseEnds(s))
  {
    hide Owes;
  }

  lemma TracksOpens(s: State, failure: Option<Err>)
    requires AckTracks(s) && (s.writing.Some? ==> s.pass.Some?)
    requires forall i, u: nat | 0 <= i < |s.queue| && u in s.queue[i].writtenOn :: u < |s.transports|
    ensures AckTracks(DoOpen(s, failure))
  {
    hide Owes, IsRetryableErr, FailAll;
    if CanOpen(s) {
      if failure.None? { TracksOpen(s); }
      else {
        TracksFailed(s, failure.value);
        TracksFailed(s.(sinceAck := s.sinceAck + 1), Exhausted(failure.value));
      }
    }
  }

  lemma TracksResolve(s: State)
    requires AckTracks(s) && (s.pending != [] ==> s.current.None?)
    ensures AckTracks(DoResolve(s))
  {
    hide Owes, Judge;
  }

  lemma {:induction false} TracksRun(s: State, actions: seq<Action>)
    requires Inv(s) && AckTracks(s) && LegalRun(s, actions)
    ensures AckTracks(Run(s, actions)) && Inv(Run(s, actions))
    decreases |actions|
  {
    hide Inv, AckTracks;
    if actions != [] {
      var n := |actions| - 1;
      var before := actions[..n];
      assert forall k | 0 <= k < n :: before[..k] == actions[..k] && before[k] == actions[k];
      TracksRun(s, before);
      assert Legal(Run(s, actions[..n]), actions[n]);
      TracksStep(Run(s, before), actions[n]);
      StepInv(Run(s, before), actions[n]);
    }
  }

  lemma ClosedAck(s: State, t: nat, ack: Option<Ack>)
    requires s.closed && s.queue == [] && IsTransport(s, t)
    ensures DoAck(s, t, ack) == CountAck(s, t)
  {
  }

  lemma AcceptedAck(s: State, t: nat, ack: Ack)
    requires InOrder(s.accepted, s.resolutions, s.queue) && AckTracks(s) && !s.closed && LegalAck(s, t, Some(ack))
    requires forall i, u: nat | 0 <= i < |s.queue| && u in s.queue[i].writtenOn :: u in s.queue[i].sentOn
    ensures var s' := DoAck(s, t, Some(ack));
            && !s'.closed && t < |s.transports| && s.transports[t].acks < |Log(s, t)|
            && s'.resolutions == s.resolutions + [Resolution(Log(s, t)[s.transports[t].acks], Acked(ack))]
  {
    hide DoAck, AckTracks, InOrder, ReleaseRefs, LastReleased, CloseSome;
    LegalAckAccepted(s, t, Some(ack));
  }

  lemma LegalAckStep(s: State, t: nat, ack: Ack)
    requires Inv(s) && AckTracks(s) && LegalAck(s, t, Some(ack))
    ensures var s' := Step(s, AckArrives(t, Some(ack)));
            && s'.closed == s.closed
            && t < |s.transports| && s.transports[t].acks < |Log(s, t)|
            && s'.resolutions == if s.closed then s.resolutions
                                 else s.resolutions + [Resolution(Log(s, t)[s.transports[t].acks], Acked(ack))]
  {
    hide Inv, AckTracks, ReleaseRefs, LastReleased, CloseSome, ValidAck, StaleAck;
    InvParts(s);
    if s.closed { ClosedAck(s, t, Some(ack)); } else { AcceptedAck(s, t, ack); }
  }

  /** In a run where the server keeps its side, the ack numbered k on a transport resolves the
      entry numbered k written on it, and ack validation never fails the session. */
  lemma AcksMatchWrites(cfg: Config, maxBytes: nat, maxItems: nat, actions: seq<Action>, t: nat, ack: Ack)
    requires LegalRun(Init(cfg, maxBytes, maxItems), actions + [AckArrives(t, Some(ack))])
    ensures var s := Run(Init(cfg, maxBytes, maxItems), actions);
            var s' := Step(s, AckArrives(t, Some(ack)));
            && s'.closed == s.closed
            && t < |s.transports| && s.transports[t].acks < |Log(s, t)|
            && s'.resolutions == if s.closed then s.resolutions
                                 else s.resolutions + [Resolution(Log(s, t)[s.transports[t].acks], Acked(ack))]
  {
    var init := Init(cfg, maxBytes, maxItems);
    InitInv(cfg, maxBytes, maxItems);
    assert AckTracks(init);
    hide Inv, AckTracks, Step, Run, LegalAck, Init;
    LegalPrefix(init, actions, AckArrives(t, Some(ack)));
    TracksRun(init, actions);
    LegalAckStep(Run(init, actions), t, ack);
  }

  lemma LegalPrefix(s: State, actions: seq<Action>, a: Action)
    requires LegalRun(s, actions + [a])
    ensures LegalRun(s, actions) && Legal(Run(s, actions), a)
  {
    hide Run, LegalAck;
    var all := actions + [a];
    var n := |actions|;
    assert all[..n] == actions && all[n] == a;
    assert Legal(Run(s, all[..n]), all[n]);
    forall k | 0 <= k < n ensures Legal(Run(s, actions[..k]), actions[k])
    {
      assert all[..k] == actions[..k] && all[k] == actions[k];
      assert Legal(Run(s, all[..k]), all[k]);
    }
  }
}
