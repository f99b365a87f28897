/** What the append session guarantees over every run. */
module AppendTheorems {
  import opened Options
  import opened Errors
  import opened Capacity
  import opened AppendModel
  import opened AppendInvariant
  import opened AppendSteps

  ghost predicate Reachable(s: State) {
    exists cfg, maxBytes, maxItems, actions :: s == Run(Init(cfg, maxBytes, maxItems), actions)
  }

  lemma ReachableInv(s: State)
    requires Reachable(s)
    ensures Inv(s)
  {
    hide Inv;
    var cfg, maxBytes, maxItems, actions :| s == Run(Init(cfg, maxBytes, maxItems), actions);
    InitInv(cfg, maxBytes, maxItems);
    RunInv(Init(cfg, maxBytes, maxItems), actions);
  }

  // ---- order, exactly once ----

  /** Accepted entries are resolved exactly once and in the order they were enqueued; the rest
      are still queued, in that order. */
  lemma ResolvedOnceInOrder(s: State)
    requires Reachable(s)
    ensures |s.resolutions| + |s.queue| == |s.accepted|
    ensures forall i | 0 <= i < |s.resolutions| :: s.resolutions[i].id == i
    ensures forall i | 0 <= i < |s.queue| :: s.queue[i].id == |s.resolutions| + i
    ensures forall i | 0 <= i < |s.queue| :: s.queue[i].input == s.accepted[s.queue[i].id]
  {
    ReachableInv(s);
  }

  /** Each ack covers exactly its entry's records, and acked end positions strictly increase. */
  lemma AcksCoverAndIncrease(s: State)
    requires Reachable(s)
    ensures forall i | 0 <= i < |s.resolutions| && s.resolutions[i].outcome.Acked? ::
              i < |s.accepted| &&
              s.resolutions[i].outcome.ack.end - s.resolutions[i].outcome.ack.start == s.accepted[i].count
    ensures forall i, j | 0 <= i < j < |s.resolutions| && s.resolutions[i].outcome.Acked? && s.resolutions[j].outcome.Acked? ::
              s.resolutions[i].outcome.ack.end < s.resolutions[j].outcome.ack.end
  {
    ReachableInv(s);
    hide RetiredOnce, SentPrefix, WrittenSent, WritesLogged, RefsExact, UnusedClosed,
      WritesCounted, EarlierFailedCleanly, DoubtTracked, CapacityExact;
    forall i | 0 <= i < |s.resolutions| && s.resolutions[i].outcome.Acked?
      ensures i < |s.accepted| &&
              s.resolutions[i].outcome.ack.end - s.resolutions[i].outcome.ack.start == s.accepted[i].count
    {
      assert AckCovers(s.accepted, s.resolutions[i], s.lastAck);
    }
  }

  // ---- side effects ----

  /** A failed entry is reported as free of side effects exactly when the final error is, and so was every
      retried transport failure that found the entry listing that transport when it was judged. What the
      report then says about the writes themselves is `CleanReportRightIff` in AppendReports. */
  lemma CleanReportIff(s: State, i: nat)
    requires Reachable(s) && i < |s.resolutions| && s.resolutions[i].outcome.Failed?
    ensures HasNoSideEffects(s.resolutions[i].outcome.reported) <==>
            && HasNoSideEffects(s.resolutions[i].outcome.cause)
            && forall k | 0 <= k < |s.failures| && i in s.failures[k].carried :: IsNoSideEffectsError(s.failures[k].err)
  {
    ReachableInv(s);
    hide AcksIncrease, RetiredOnce, SentPrefix, WrittenSent, WritesLogged, RefsExact, UnusedClosed,
      WritesCounted, EarlierFailedCleanly, CapacityExact;
    hide IsNoSideEffectsError, HasNoSideEffects, WithPriorUncertainty;
    assert s.resolutions[i].id == i;
    PriorUncertaintyDecides(s.resolutions[i].outcome.cause, InDoubt(s.failures, i));
  }

  /** The ids written on transport `t`, in order. */
  function Log(s: State, t: nat): seq<nat> {
    if t < |s.transports| then s.transports[t].written else []
  }

  ghost predicate SameLogs(s: State, s': State) {
    forall t: nat :: Log(s, t) == Log(s', t)
  }

  lemma RetireLogs(s: State, cause: Cause, claims: seq<Claim>)
    requires s.current.Some? && IsTransport(s, s.current.value)
    ensures SameLogs(s, RetireCurrent(s, cause, claims))
  {
  }

  lemma SessionErrorLogs(s: State, t: nat, err: Err)
    ensures SameLogs(s, SessionError(s, t, err))
  {
    if !s.closed && IsTransport(s, t) && s.current == Some(t) { RetireLogs(s, FailedWith(err), [Claim(t, err)]); }
  }

  lemma FailAllLogs(s: State, err: Err)
    ensures SameLogs(s, FailAll(s, err))
  {
    hide ReleaseAll, FailEach;
  }

  lemma AcceptLogs(s: State, t: nat, ack: Ack)
    requires IsTransport(s, t) && s.queue != []
    ensures SameLogs(s, AcceptAck(s, t, ack))
  {
  }

  lemma CountLogs(s: State, t: nat)
    requires IsTransport(s, t)
    ensures SameLogs(s, CountAck(s, t))
  {
  }

  lemma HandleLogs(s: State, t: nat, ack: Option<Ack>)
    requires IsTransport(s, t)
    ensures SameLogs(s, HandleAck(s, t, ack))
  {
    FailAllLogs(s, Plain("append ack invariant violated"));
    if s.queue != [] && ValidAck(s, s.queue[0], ack) { AcceptLogs(s, t, ack.value); }
    hide FailAll, AcceptAck, ValidAck, StaleAck;
  }

  lemma AckLogs(s: State, t: nat, ack: Option<Ack>)
    ensures SameLogs(s, DoAck(s, t, ack))
  {
    hide HandleAck, CountAck, Log;
    if IsTransport(s, t) {
      CountLogs(s, t);
      CountKeepsTransports(s, t);
      HandleLogs(CountAck(s, t), t, ack);
    }
  }

  lemma CountKeepsTransports(s: State, t: nat)
    requires IsTransport(s, t)
    ensures IsTransport(CountAck(s, t), t)
  {
  }

  lemma ResolveLogs(s: State)
    ensures SameLogs(s, DoResolve(s))
  {
    if s.pending != [] {
      var s1 := s.(pending := s.pending[1..]);
      var v := Judge(s1, s.pending[0]);
      hide Judge, FailAll;
      if v.GiveUp? { FailAllLogs(s1.(sinceAck := s.sinceAck + v.extra), v.err); }
    }
  }

  lemma OpenLogs(s: State, failure: Option<Err>)
    ensures SameLogs(s, DoOpen(s, failure))
  {
    hide FailAll, IsRetryableErr;
    if failure.Some? {
      FailAllLogs(s, failure.value);
      FailAllLogs(s.(sinceAck := s.sinceAck + 1), Exhausted(failure.value));
    }
  }

  lemma EndLogs(s: State, t: nat)
    ensures SameLogs(s, DoEndCleanly(s, t))
  {
    hide SessionError, RetireCurrent, HasUnacked;
    SessionErrorLogs(s, t, Plain("append session ended before acknowledging all appends"));
    if s.current.Some? && IsTransport(s, s.current.value) { RetireLogs(s, MovedOnAdvice, []); }
  }

  lemma TimeOutLogs(s: State)
    ensures SameLogs(s, DoTimeOut(s))
  {
    hide RetireCurrent;
    if s.current.Some? && IsTransport(s, s.current.value) {
      RetireLogs(s, TimedOut(TIMEOUT_ERROR), [Claim(s.current.value, TIMEOUT_ERROR)]);
    }
  }

  /** The steps that touch no transport, or only close them. */
  lemma QuietLogs(s: State, a: Action)
    requires a.Reserve? || a.Enqueue? || a.BeginPass? || a.Mark? || a.EndPass? || a.Advise? || a.AnswerAdvice? || a.TransportCloses? || a.CancelContext?
             || a.CloseStarts? || a.PumpDrains? || a.CloseEnds?
    ensures SameLogs(s, Step(s, a))
  {
    hide TryReserve, ReleaseAll, FailEach, Release;
  }

  lemma OnlyWritesLog(s: State, a: Action)
    requires !a.FinishWrite?
    ensures SameLogs(s, Step(s, a))
  {
    hide SameLogs, FailAll, SessionError, DoReserve, DoEnqueue, DoBeginPass, DoMark, DoEndPass, DoAck, DoResolve, DoOpen, DoEndCleanly,
      DoTimeOut, DoCloseEnds, SetAdvice, CloseSome, TransportErr;
    match a
    case Open(failure) => OpenLogs(s, failure);
    case AckArrives(t, ack) => AckLogs(s, t, ack);
    case EndCleanly(t) => EndLogs(s, t);
    case TransportFails(t, err) => SessionErrorLogs(s, t, err); SameAsItself(s);
    case TimeOut => TimeOutLogs(s);
    case Resolve => ResolveLogs(s);
    case PumpStops => FailAllLogs(s, SessionClosed); SameAsItself(s);
    case _ => QuietLogs(s, a);
  }

  lemma SameAsItself(s: State)
    ensures SameLogs(s, s)
  {
  }

  lemma WriteLogs(s: State, t: nat)
    requires s.writing.Some? && IsTransport(s, s.writing.value.transport)
    ensures Log(LogWrite(s), t) == if t == s.writing.value.transport then Log(s, t) + [s.writing.value.id] else Log(s, t)
    ensures Log(StopPass(LogWrite(s)), t) == Log(LogWrite(s), t) && Log(StopPass(s), t) == Log(s, t)
  {
    hide WrittenTo, RetiredUncleanly;
  }

  lemma FinishLogs(s: State, w: Write, t: nat)
    requires Log(DoFinishWrite(s, w), t) != Log(s, t)
    ensures s.writing.Some? && s.writing.value.transport == t < |s.transports|
    ensures Log(DoFinishWrite(s, w), t) == Log(s, t) + [s.writing.value.id]
  {
    hide TransportErr, SessionError, LogWrite, StopPass, Log;
    if s.writing.Some? && IsTransport(s, s.writing.value.transport) {
      WriteLogs(s, t);
      if w.FailedAfter? { SessionErrorLogs(StopPass(LogWrite(s)), s.writing.value.transport, w.err); }
      if w.FailedBefore? { SessionErrorLogs(StopPass(s), s.writing.value.transport, w.err); }
    }
  }

  /** One step appends at most one id to one transport's write log: the entry marked for it just before. */
  lemma WriteShape(s: State, a: Action, t: nat)
    requires Log(Step(s, a), t) != Log(s, t)
    ensures a.FinishWrite? && s.writing.Some? && s.writing.value.transport == t < |s.transports|
    ensures Log(Step(s, a), t) == Log(s, t) + [s.writing.value.id]
  {
    hide Log, DoFinishWrite;
    if a.FinishWrite? {
      assert Step(s, a) == DoFinishWrite(s, a.write);
      FinishLogs(s, a.write, t);
    } else {
      OnlyWritesLog(s, a);
    }
  }

  /** Under the noSideEffects policy no entry is written twice on a transport; and when one is written,
      every other transport it was ever written on has failed with an error free of side effects, if and
      only if none of those writes was late, that is, signalled on a transport already retired, by an unclean
      failure that has been judged or on advice. */
  lemma WritesOnlyAfterCleanFailures(s: State, a: Action, t: nat)
    requires Reachable(s) && s.cfg.onlyNoSideEffects && Log(Step(s, a), t) != Log(s, t)
    ensures s.writing.Some?
    ensures var id := s.writing.value.id;
            && Log(Step(s, a), t) == Log(s, t) + [id] && id !in Log(s, t)
            && ((forall u | 0 <= u < |s.transports| && u != t && id in Log(s, u) :: FailedCleanly(s.transports[u])) <==>
                (forall u: nat | u != t :: Writing(id, u) !in s.late))
  {
    ReachableInv(s);
    WriteShape(s, a, t);
    WritingFacts(s);
  }

  lemma WritingFacts(s: State)
    requires Inv(s) && s.writing.Some? && s.cfg.onlyNoSideEffects
    ensures var Writing(id, t) := s.writing.value;
            && t < |s.transports| && id !in Log(s, t)
            && ((forall u | 0 <= u < |s.transports| && u != t && id in Log(s, u) :: FailedCleanly(s.transports[u])) <==>
                (forall u: nat | u != t :: Writing(id, u) !in s.late))
  {
    hide InOrder, AcksIncrease, RetiredOnce, SentPrefix, WrittenSent, WritesLogged, RefsExact, UnusedClosed, WritesCounted,
      EarlierFailedCleanly, DoubtTracked, CapacityExact, FailedCleanly;
    var Writing(id, t) := s.writing.value;
    assert Logs(s.transports)[t] == s.transports[t].written;
    forall u: nat | u != t && Writing(id, u) in s.late ensures u < |s.transports| && id in Log(s, u) && !FailedCleanly(s.transports[u]) {}
  }

  /** The parts of a state with one queued entry that the run below goes through. */
  ghost predicate At(s: State, e: Entry, ts: seq<Transport>, current: Option<nat>, pending: seq<Claim>, pass: Option<nat>,
                     writing: Option<Writing>, refs: map<nat, nat>, attempt: nat) {
    && s.cfg == Config(3, true) && s.attempt == attempt && !s.cancelled && !s.closed
    && s.queue == [e] && s.transports == ts && s.current == current && s.pending == pending && s.pass == pass && s.writing == writing
    && s.refs == refs && |s.accepted| == 1
  }

  const OPENED: Transport := Transport(true, 0, NoAdvice, [], 0, [])

  function Fresh(): Entry { Entry(0, Input(1, 8, false), false, [], false, []) }

  lemma AtFirst()
    ensures At(Step(Step(Step(Init(Config(3, true), 1000, 10), Reserve(Input(1, 8, false))), Enqueue(0)), Open(None)),
               Fresh(), [OPENED], Some(0), [], None, None, map[], 0)
  {
    var s1 := Step(Init(Config(3, true), 1000, 10), Reserve(Input(1, 8, false)));
    assert s1.reserved == [Input(1, 8, false)];
    var s2 := Step(s1, Enqueue(0));
    assert s2.queue == [Fresh()];
  }

  lemma AtMarked(s: State, e: Entry, ts: seq<Transport>, t: nat, refs: map<nat, nat>, attempt: nat)
    requires At(s, e, ts, Some(t), [], None, None, refs, attempt) && t < |ts| && ts[t] == OPENED && t !in e.sentOn && t !in refs && e.id == 0
    ensures At(Step(Step(s, BeginPass), Mark), e.(sentOn := e.sentOn + [t], started := true), ts, Some(t), [], Some(t),
               Some(Writing(e.id, t)), refs[t := 1], attempt)
    ensures Step(Step(s, BeginPass), Mark).late == s.late
  {
    var s1 := Step(s, BeginPass);
    assert s1 == s.(pass := Some(t), passEnd := |s.accepted|);
    assert FirstUnsent([e], t) == 0;
  }

  /** The failure is claimed and judged while the pump is about to write: no write was signalled. */
  lemma AtClaimed(s: State, e: Entry, err: Err)
    requires At(s, e, [OPENED], Some(0), [], Some(0), Some(Writing(0, 0)), map[0 := 1], 0) && err == Network("reset")
    ensures At(Step(s, TransportFails(0, err)), e, [OPENED.(retirements := [FailedWith(err)])], None, [Claim(0, err)], Some(0),
               Some(Writing(0, 0)), map[0 := 1], 0)
  {
    assert [] + [FailedWith(err)] == [FailedWith(err)] && [] + [Claim(0, err)] == [Claim(0, err)];
    var s1 := Step(s, TransportFails(0, err));
    assert s1.transports == [OPENED.(retirements := [FailedWith(err)])];
  }

  lemma AtJudged(s: State, e: Entry, err: Err) returns (e': Entry)
    requires At(s, e, [OPENED.(retirements := [FailedWith(err)])], None, [Claim(0, err)], Some(0), Some(Writing(0, 0)), map[0 := 1], 0)
    requires e.sentOn == [0] && err == Network("reset")
    ensures e'.id == e.id && e'.sentOn == e.sentOn && e'.writtenOn == e.writtenOn
    ensures At(Step(s, Resolve), e', [OPENED.(retirements := [FailedWith(err)])], None, [], Some(0), Some(Writing(0, 0)), map[0 := 1], 1)
  {
    hide FailAll, Carried;
    var s1 := s.(pending := []);
    assert s.pending[1..] == [];
    assert Judge(s1, Claim(0, err)) == Retry(1);
    e' := e.(started := false, priorUncertainty := true);
    assert AfterFailure([e], Claim(0, err)) == [e'];
  }

  lemma AtLate(s: State, e: Entry, err: Err)
    requires At(s, e, [OPENED.(retirements := [FailedWith(err)])], None, [], Some(0), Some(Writing(0, 0)), map[0 := 1], 1)
    requires e.id == 0 && e.writtenOn == [] && err == Network("reset")
    ensures var s' := Step(Step(Step(s, FinishWrite(Written)), EndPass), Open(None));
            && Writing(0, 0) in s'.late
            && At(s', e.(writtenOn := [0]), [OPENED.(retirements := [FailedWith(err)], pendingWrites := 1, written := [0]), OPENED],
                  Some(1), [], None, None, map[0 := 1], 1)
  {
    var s1 := Step(s, FinishWrite(Written));
    assert s1 == LogWrite(s);
    assert [] + [0] == [0];
    assert s1.queue[0] == e.(writtenOn := [0]);
    assert s1.queue == [e.(writtenOn := [0])];
    assert s1.transports[0] == OPENED.(retirements := [FailedWith(err)], pendingWrites := 1, written := [0]);
    assert s1.transports == [OPENED.(retirements := [FailedWith(err)], pendingWrites := 1, written := [0])];
    var s2 := Step(s1, EndPass);
    assert s2 == s1.(pass := None);
  }

  lemma AtAgain(s: State, e: Entry, ts: seq<Transport>)
    requires At(s, e, ts, Some(1), [], Some(1), Some(Writing(0, 1)), map[0 := 1, 1 := 1], 1) && |ts| == 2 && ts[1] == OPENED
    ensures var s' := Step(s, FinishWrite(Written));
            && s'.cfg == s.cfg == Config(3, true) && s'.late >= s.late
            && Log(s', 1) == [0] && Log(s', 0) == ts[0].written && |s'.transports| == 2 && s'.transports[0] == ts[0]
  {
    hide WrittenTo;
  }

  /** Late writes happen: the transport fails after the pump has marked an entry for it and before the
      write is signalled, its judgement sees no write and retries, and the write still goes out. The entry
      is then written on a second transport although the first did not fail cleanly. */
  lemma LateWriteRepeats() returns (s: State)
    ensures Reachable(s) && s.cfg.onlyNoSideEffects
    ensures Log(s, 0) == [0] && Log(s, 1) == [0] && Writing(0, 0) in s.late && !FailedCleanly(s.transports[0])
  {
    hide Step, At;
    var err := Network("reset");
    var init := Init(Config(3, true), 1000, 10);
    ghost var done: seq<Action> := [];
    s := init;
    s, done := Follow(init, s, done, Reserve(Input(1, 8, false)));
    s, done := Follow(init, s, done, Enqueue(0));
    s, done := Follow(init, s, done, Open(None));
    AtFirst();
    AtMarked(s, Fresh(), [OPENED], 0, map[], 0);
    s, done := Follow(init, s, done, BeginPass);
    s, done := Follow(init, s, done, Mark);
    var e := Fresh().(sentOn := [] + [0], started := true);
    AtClaimed(s, e, err);
    s, done := Follow(init, s, done, TransportFails(0, err));
    var e' := AtJudged(s, e, err);
    s, done := Follow(init, s, done, Resolve);
    AtLate(s, e', err);
    s, done := Follow(init, s, done, FinishWrite(Written));
    s, done := Follow(init, s, done, EndPass);
    s, done := Follow(init, s, done, Open(None));
    var us := [OPENED.(retirements := [FailedWith(err)], pendingWrites := 1, written := [0]), OPENED];
    AtMarked(s, e'.(writtenOn := [0]), us, 1, map[0 := 1], 1);
    s, done := Follow(init, s, done, BeginPass);
    s, done := Follow(init, s, done, Mark);
    AtAgain(s, e'.(writtenOn := [0], sentOn := [0] + [1], started := true), us);
    s, done := Follow(init, s, done, FinishWrite(Written));
  }

  lemma Follow(init: State, s: State, done: seq<Action>, a: Action) returns (s': State, more: seq<Action>)
    requires s == Run(init, done)
    ensures s' == Step(s, a) == Run(init, more) && more == done + [a]
  {
    hide Step;
    more := done + [a];
    assert more[..|more| - 1] == done;
    s' := Run(init, more);
  }

  /** A transport's pending-write counter covers every unresolved entry written on it. */
  lemma PendingWritesCover(s: State, t: nat)
    requires Reachable(s) && t < |s.transports|
    ensures Mentions(WrittenLists(s.queue), t) <= s.transports[t].pendingWrites
  {
    ReachableInv(s);
  }

  // ---- transports ----

  /** For every transport the entries sent on it are a prefix of the queue, each lists it once,
      its reference count is their number, and an unreferenced transport out of use is closed. */
  lemma TransportsInUse(s: State, t: nat)
    requires Reachable(s)
    ensures forall i, j | 0 <= i < j < |s.queue| && t in s.queue[j].sentOn :: t in s.queue[i].sentOn
    ensures forall i | 0 <= i < |s.queue| :: NoRepeats(s.queue[i].sentOn)
    ensures (if t in s.refs then s.refs[t] else 0) == Mentions(SentLists(s.queue), t)
    ensures (if t in s.refs then s.refs[t] else 0) == FirstUnsent(s.queue, t)
    ensures t < |s.transports| && s.current != Some(t) && t !in s.refs ==> !s.transports[t].isOpen
  {
    ReachableInv(s);
    PrefixCount(s.queue, t);
  }

  lemma {:induction false} PrefixCount(q: seq<Entry>, t: nat)
    requires forall i, j | 0 <= i < j < |q| && t in q[j].sentOn :: t in q[i].sentOn
    ensures Mentions(SentLists(q), t) == FirstUnsent(q, t)
  {
    if q != [] {
      MentionsPop(q, t);
      if t in q[0].sentOn {
        PrefixCount(q[1..], t);
      } else {
        MentionsZero(SentLists(q), t);
      }
    }
  }

  /** A transport is retired at most once, by an error, a timeout or accepted advice, and is never
      current afterwards. */
  lemma RetiredAtMostOnce(s: State, t: nat)
    requires Reachable(s) && t < |s.transports|
    ensures |s.transports[t].retirements| <= 1
    ensures s.transports[t].retirements == [] <==> s.current == Some(t)
  {
    ReachableInv(s);
  }

  ghost predicate SameClaims(s: State, s': State) {
    s'.pending == s.pending && s'.current == s.current && |s'.transports| == |s.transports|
  }

  lemma AckKeepsClaims(s: State, t: nat, ack: Option<Ack>)
    ensures SameClaims(s, DoAck(s, t, ack))
  {
    hide FailAll, StaleAck, CloseSome, ReleaseRefs, LastReleased;
    if IsTransport(s, t) { FailAllKeepsClaims(CountAck(s, t), Plain("append ack invariant violated")); }
  }

  lemma FailAllKeepsClaims(s: State, err: Err)
    ensures SameClaims(s, FailAll(s, err))
  {
    hide ReleaseAll, FailEach;
  }

  lemma ErrorKeepsClaims(s: State, t: nat, err: Err)
    requires s.current.None?
    ensures SameClaims(s, SessionError(s, t, err))
    ensures SameClaims(s, DoEndCleanly(s, t))
  {
    hide TransportErr;
  }

  /** Until a claimed failure is resolved no transport is opened and no other failure is claimed. */
  lemma ClaimHoldsOffOpening(s: State, a: Action)
    requires s.current.None? && s.pending != [] && !a.Resolve?
    ensures SameClaims(s, Step(s, a))
  {
    hide DoAck, FailAll, SessionError, DoEndCleanly, TransportErr, DoCloseEnds, DoFinishWrite, DoReserve, DoEnqueue, DoBeginPass, DoMark, SetAdvice, CloseSome;
    match a
    case AckArrives(t, ack) => AckKeepsClaims(s, t, ack);
    case Open(failure) => assert DoOpen(s, failure) == s;
    case FinishWrite(w) => FinishKeepsClaims(s, w);
    case TimeOut => assert DoTimeOut(s) == s;
    case EndCleanly(t) => ErrorKeepsClaims(s, t, Cancelled);
    case TransportFails(t, err) => ErrorKeepsClaims(s, t, err);
    case PumpStops => FailAllKeepsClaims(s, SessionClosed);
    case CloseEnds => CloseEndsKeepsClaims(s);
    case _ => QuietKeepsClaims(s, a);
  }

  lemma QuietKeepsClaims(s: State, a: Action)
    requires a.Reserve? || a.Enqueue? || a.BeginPass? || a.Mark? || a.EndPass? || a.Advise? || a.AnswerAdvice? || a.TransportCloses? || a.CancelContext?
             || a.CloseStarts? || a.PumpDrains?
    ensures SameClaims(s, Step(s, a))
  {
    hide TryReserve, Release, HoldsInputs;
  }

  lemma FinishKeepsClaims(s: State, w: Write)
    requires s.current.None?
    ensures SameClaims(s, DoFinishWrite(s, w))
  {
    hide TransportErr, SessionError, WrittenTo, RetiredUncleanly, DoEndCleanly;
    if s.writing.Some? && IsTransport(s, s.writing.value.transport) && !w.Written? {
      ErrorKeepsClaims(StopPass(s), s.writing.value.transport, w.err);
      ErrorKeepsClaims(StopPass(LogWrite(s)), s.writing.value.transport, w.err);
    }
  }

  lemma CloseEndsKeepsClaims(s: State)
    ensures SameClaims(s, DoCloseEnds(s))
  {
  }

  lemma {:induction false} NoOpeningDuringClaim(s: State, actions: seq<Action>)
    requires Reachable(s) && s.pending != []
    requires forall k | 0 <= k < |actions| :: !actions[k].Resolve?
    ensures SameClaims(s, Run(s, actions))
    decreases |actions|
  {
    ReachableInv(s);
    assert s.current.None?;
    hide Inv;
    if actions != [] {
      var before := actions[..|actions| - 1];
      NoOpeningDuringClaim(s, before);
      ClaimHoldsOffOpening(Run(s, before), actions[|actions| - 1]);
    }
  }

  // ---- retry budget ----

  /** Between two acks at most MaxAttempts failures are charged to the budget, and once that many
      were, every entry has been failed. */
  lemma BudgetedFailures(s: State)
    requires Reachable(s)
    ensures s.attempt <= MaxAttempts(s) - 1
    ensures s.sinceAck <= MaxAttempts(s)
    ensures s.sinceAck == MaxAttempts(s) ==> s.closed && s.queue == []
  {
    ReachableInv(s);
  }

  // ---- capacity ----

  /** Tracked bytes and batches are exactly the queued entries plus open reservations, within limits. */
  lemma CapacityMatches(s: State)
    requires Reachable(s)
    ensures s.capacity.curBytes == Sum(Bytes(s.queue)) + Sum(InputBytes(s.reserved))
    ensures s.capacity.maxItems > 0 ==> s.capacity.curItems == |s.queue| + |s.reserved| <= s.capacity.maxItems
    ensures s.capacity.maxBytes > 0 ==> s.capacity.curBytes <= s.capacity.maxBytes
  {
    ReachableInv(s);
    SumAppend(Bytes(s.queue), InputBytes(s.reserved));
  }

  // ---- closing ----

  ghost predicate Drained(s: State) { s.closing && s.queue == [] }

  lemma ErrorsStayEmpty(s: State, t: nat, err: Err)
    requires Drained(s)
    ensures Drained(SessionError(s, t, err)) && Drained(DoEndCleanly(s, t)) && Drained(DoTimeOut(s))
  {
    hide CloseSome;
  }

  lemma ResolveStaysEmpty(s: State)
    requires Drained(s)
    ensures Drained(DoResolve(s))
  {
    hide Judge, CloseSome, ReleaseAll, FailEach;
  }

  lemma ClosingStepStaysEmpty(s: State, a: Action)
    requires Drained(s)
    ensures Drained(Step(s, a))
  {
    hide TransportErr, TryReserve, SessionError, DoFinishWrite, DoEndCleanly, DoTimeOut, DoResolve, ReleaseAll, FailEach, CloseSome;
    match a
    case EndCleanly(t) => ErrorsStayEmpty(s, t, SessionClosed);
    case TransportFails(t, err) => ErrorsStayEmpty(s, t, err);
    case TimeOut => ErrorsStayEmpty(s, 0, SessionClosed);
    case Resolve => ResolveStaysEmpty(s);
    case FinishWrite(w) => FinishStaysEmpty(s, w);
    case _ =>
  }

  lemma FinishStaysEmpty(s: State, w: Write)
    requires Drained(s)
    ensures Drained(DoFinishWrite(s, w))
  {
    hide TransportErr, SessionError, DoEndCleanly, DoTimeOut, RetiredUncleanly;
    if s.writing.Some? && IsTransport(s, s.writing.value.transport) && !w.Written? {
      ErrorsStayEmpty(StopPass(s), s.writing.value.transport, w.err);
      ErrorsStayEmpty(StopPass(LogWrite(s)), s.writing.value.transport, w.err);
    }
  }

  /** Once closing has begun and the queue has been seen empty it stays empty. */
  lemma {:induction false} ClosedQueueStaysEmpty(s: State, actions: seq<Action>)
    requires s.closing && s.queue == []
    ensures Run(s, actions).closing && Run(s, actions).queue == []
    decreases |actions|
  {
    if actions != [] {
      ClosedQueueStaysEmpty(s, actions[..|actions| - 1]);
      ClosingStepStaysEmpty(Run(s, actions[..|actions| - 1]), actions[|actions| - 1]);
    }
  }

  /** The final sweep of Close never finds an entry: nothing is resolved there a second time. */
  lemma CloseFindsNothing(s: State)
    requires Reachable(s) && s.closeDone
    ensures s.queue == [] && DoCloseEnds(s).resolutions == s.resolutions && DoCloseEnds(s).capacity == s.capacity
  {
    ReachableInv(s);
  }
}
