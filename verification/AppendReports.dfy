/** When "no side effects" may be reported: what a failed entry's report says about the writes that
    really went out. */
module AppendReports {
  import opened Options
  import opened Errors
  import opened Capacity
  import opened AppendModel
  import opened AppendInvariant
  import opened AppendSteps
  import opened AppendTheorems

  predicate ReportedClean(r: Resolution) {
    r.outcome.Failed? && HasNoSideEffects(r.outcome.reported)
  }

  /** Every transport the entry was written on failed cleanly, or the write was late. */
  ghost predicate Backed(s: State, id: nat) {
    forall t | 0 <= t < |s.transports| && id in s.transports[t].written ::
      FailedCleanly(s.transports[t]) || Writing(id, t) in s.late
  }

  /** Every entry has been resolved, and no failure is left to judge. */
  ghost predicate Over(s: State) {
    s.closed && s.cancelled && s.queue == [] && s.current.None? && s.pending == []
  }

  ghost predicate ReportsBacked(s: State) {
    forall k | 0 <= k < |s.resolutions| && ReportedClean(s.resolutions[k]) :: Over(s) && Backed(s, s.resolutions[k].id)
  }

  // ---- once a clean report has been made ----

  ghost predicate SameRetirements(s: State, s': State) {
    |s'.transports| == |s.transports| && s'.late == s.late
    && forall t | 0 <= t < |s.transports| :: s'.transports[t].retirements == s.transports[t].retirements
  }

  ghost predicate StaysOver(s: State, s': State) {
    Over(s') && s'.resolutions == s.resolutions && SameRetirements(s, s')
  }

  lemma OverFails(s: State, err: Err)
    requires Over(s)
    ensures StaysOver(s, FailAll(s, err)) && StaysOver(s, DoCloseEnds(s))
  {
    assert FailEach([], err) == [] && FailEach([], SessionClosed) == [];
  }

  lemma OverAck(s: State, t: nat, ack: Option<Ack>)
    requires Over(s)
    ensures StaysOver(s, DoAck(s, t, ack))
  {
  }

  lemma OverErrors(s: State, t: nat, err: Err)
    requires Over(s)
    ensures SessionError(s, t, err) == s && DoEndCleanly(s, t) == s && DoTimeOut(s) == s && DoResolve(s) == s
    ensures DoOpen(s, Some(err)) == s && DoOpen(s, None) == s && DoMark(s) == s && DoBeginPass(s) == s
  {
  }

  lemma OverQuiet(s: State, a: Action)
    requires Over(s)
    requires a.Reserve? || a.EndPass? || a.Advise? || a.AnswerAdvice? || a.TransportCloses? || a.CancelContext? || a.CloseStarts? || a.PumpDrains?
    ensures StaysOver(s, Step(s, a))
  {
    hide TryReserve;
  }

  lemma OverEnqueue(s: State, k: nat)
    requires Over(s) && s.closing
    ensures StaysOver(s, DoEnqueue(s, k))
  {
    hide Release;
  }

  lemma OverStep(s: State, a: Action)
    requires Over(s) && s.closing && !a.FinishWrite?
    ensures StaysOver(s, Step(s, a))
  {
    hide Over, SessionError, DoEndCleanly, DoTimeOut, DoResolve, DoOpen, DoMark, DoBeginPass, DoAck, DoEnqueue, DoReserve, DoEndPass,
      FailAll, DoCloseEnds, SetAdvice, CloseSome, TransportErr;
    match a
    case Enqueue(k) => OverEnqueue(s, k);
    case Open(failure) => OverErrors(s, 0, if failure.Some? then failure.value else SessionClosed);
    case BeginPass => OverErrors(s, 0, SessionClosed);
    case Mark => OverErrors(s, 0, SessionClosed);
    case AckArrives(t, ack) => OverAck(s, t, ack);
    case EndCleanly(t) => OverErrors(s, t, SessionClosed);
    case TransportFails(t, err) => OverErrors(s, t, err);
    case TimeOut => OverErrors(s, 0, SessionClosed);
    case Resolve => OverErrors(s, 0, SessionClosed);
    case PumpStops => OverFails(s, SessionClosed);
    case CloseEnds => OverFails(s, SessionClosed);
    case _ => OverQuiet(s, a);
  }

  lemma KeptBacked(s: State, s': State, id: nat)
    requires Backed(s, id) && SameRetirements(s, s') && SameLogs(s, s')
    ensures Backed(s', id)
  {
    forall t | 0 <= t < |s'.transports| && id in s'.transports[t].written
      ensures FailedCleanly(s'.transports[t]) || Writing(id, t) in s'.late
    {
      assert Log(s', t) == Log(s, t);
    }
  }

  /** A write after the report is on a transport that failed cleanly, or late. */
  lemma OverWrite(s: State, id: nat)
    requires Over(s) && s.writing.Some? && IsTransport(s, s.writing.value.transport) && Backed(s, id)
    ensures Over(LogWrite(s)) && LogWrite(s).resolutions == s.resolutions && Backed(LogWrite(s), id)
  {
    LogTransports(s);
    hide FailedCleanly;
    var s' := LogWrite(s);
    var t := s.writing.value.transport;
    forall u | 0 <= u < |s'.transports| && id in s'.transports[u].written
      ensures FailedCleanly(s'.transports[u]) || Writing(id, u) in s'.late
    {
      CleanFrame(s.transports[u], s'.transports[u]);
      assert id in s.transports[u].written || (u == t && id == s.writing.value.id);
    }
  }

  lemma CleanFrame(tr: Transport, us: Transport)
    requires us.retirements == tr.retirements
    ensures FailedCleanly(us) == FailedCleanly(tr)
  {
  }

  lemma OverStop(s: State, t: nat, err: Err, id: nat)
    requires Over(s)
    ensures SessionError(StopPass(s), t, err) == StopPass(s) && Over(StopPass(s)) && StopPass(s).resolutions == s.resolutions
    ensures Backed(s, id) ==> Backed(StopPass(s), id)
  {
    hide FailedCleanly;
  }

  lemma OverFinish(s: State, w: Write, id: nat)
    requires Over(s) && Backed(s, id)
    ensures var s' := DoFinishWrite(s, w); Over(s') && s'.resolutions == s.resolutions && Backed(s', id)
  {
    hide Over, Backed, LogWrite, StopPass, SessionError, TransportErr;
    if s.writing.Some? && IsTransport(s, s.writing.value.transport) {
      OverWrite(s, id);
      if !w.Written? {
        OverStop(s, s.writing.value.transport, w.err, id);
        OverStop(LogWrite(s), s.writing.value.transport, w.err, id);
      }
    }
  }

  lemma OverKeeps(s: State, a: Action, id: nat)
    requires Over(s) && s.closing && Backed(s, id)
    ensures var s' := Step(s, a); Over(s') && s'.resolutions == s.resolutions && Backed(s', id)
  {
    hide Over, Backed, DoFinishWrite;
    if a.FinishWrite? {
      assert Step(s, a) == DoFinishWrite(s, a.write);
      OverFinish(s, a.write, id);
    } else {
      OverStep(s, a);
      OnlyWritesLog(s, a);
      KeptBacked(s, Step(s, a), id);
    }
  }

  // ---- making a clean report ----

  /** Nothing is reported clean that was not before. */
  ghost predicate NothingNew(s: State, s': State) {
    forall k | 0 <= k < |s'.resolutions| && ReportedClean(s'.resolutions[k]) :: s'.resolutions[k] in s.resolutions
  }

  lemma DirtyFails(s: State, err: Err)
    requires !HasNoSideEffects(err)
    ensures NothingNew(s, FailAll(s, err)) && (err == SessionClosed ==> NothingNew(s, DoCloseEnds(s)))
  {
    hide ReleaseAll, CloseSome;
  }

  lemma RetireReports(s: State, cause: Cause, claims: seq<Claim>, t: nat)
    ensures CloseIfUnused(s, t).resolutions == s.resolutions
    ensures s.current.Some? && IsTransport(s, s.current.value) ==> RetireCurrent(s, cause, claims).resolutions == s.resolutions
  {
    hide CloseSome;
  }

  lemma ErrorReports(s: State, t: nat, err: Err)
    ensures SessionError(s, t, err).resolutions == s.resolutions
  {
    hide RetireCurrent, CloseIfUnused;
    RetireReports(s, FailedWith(err), if s.current.Some? then [Claim(s.current.value, err)] else [], t);
  }

  lemma EndReports(s: State, t: nat)
    ensures DoEndCleanly(s, t).resolutions == s.resolutions && DoTimeOut(s).resolutions == s.resolutions
  {
    hide RetireCurrent, CloseIfUnused, SessionError, HasUnacked;
    ErrorReports(s, t, Plain("append session ended before acknowledging all appends"));
    RetireReports(s, MovedOnAdvice, [], t);
    if s.current.Some? { RetireReports(s, TimedOut(TIMEOUT_ERROR), [Claim(s.current.value, TIMEOUT_ERROR)], t); }
  }

  lemma AckReports(s: State, t: nat, ack: Option<Ack>)
    ensures NothingNew(s, DoAck(s, t, ack))
  {
    if IsTransport(s, t) {
      var s1 := CountAck(s, t);
      DirtyFails(s1, Plain("append ack invariant violated"));
      hide FailAll, ValidAck, StaleAck, ReleaseRefs, LastReleased, CloseSome, HasNoSideEffects;
    }
  }

  lemma FinishReports(s: State, w: Write)
    ensures DoFinishWrite(s, w).resolutions == s.resolutions
  {
    hide SessionError, DoEndCleanly, DoTimeOut, WrittenTo, RetiredUncleanly, TransportErr;
    if s.writing.Some? && IsTransport(s, s.writing.value.transport) && !w.Written? {
      ErrorReports(StopPass(s), s.writing.value.transport, w.err);
      ErrorReports(StopPass(LogWrite(s)), s.writing.value.transport, w.err);
    }
  }

  lemma QuietReports(s: State, a: Action)
    requires a.Reserve? || a.Enqueue? || a.BeginPass? || a.Mark? || a.EndPass? || a.Advise? || a.AnswerAdvice? || a.TransportCloses? || a.CancelContext?
             || a.CloseStarts? || a.PumpDrains?
    ensures Step(s, a).resolutions == s.resolutions
  {
    hide TryReserve, Release, CloseSome, HoldsInputs;
  }

  /** Only giving up on opening or on a claimed failure can report an entry clean. */
  lemma OthersReportNothing(s: State, a: Action)
    requires !a.Open? && !a.Resolve?
    ensures NothingNew(s, Step(s, a))
  {
    hide NothingNew, SessionError, DoReserve, DoEnqueue, DoBeginPass, DoMark, DoEndPass, DoAck, DoEndCleanly, DoFinishWrite, DoTimeOut, DoCloseEnds, SetAdvice,
      FailAll, CloseSome, TransportErr, HasNoSideEffects;
    match a
    case AckArrives(t, ack) => AckReports(s, t, ack);
    case EndCleanly(t) => EndReports(s, t); SameReports(s, Step(s, a));
    case TransportFails(t, err) => ErrorReports(s, t, err); SameReports(s, Step(s, a));
    case TimeOut => EndReports(s, 0); SameReports(s, Step(s, a));
    case FinishWrite(w) => FinishReports(s, w); SameReports(s, Step(s, a));
    case PumpStops => ClosedIsDirty(); DirtyFails(s, SessionClosed); SameReports(s, s);
    case CloseEnds => ClosedIsDirty(); DirtyFails(s, SessionClosed);
    case _ => QuietReports(s, a); SameReports(s, Step(s, a));
  }

  lemma ClosedIsDirty()
    ensures !HasNoSideEffects(SessionClosed)
  {
  }

  lemma SameReports(s: State, s': State)
    requires s'.resolutions == s.resolutions
    ensures NothingNew(s, s')
  {
  }

  /** Giving up: every queued entry not in doubt was written only where the failure was clean, or late. */
  lemma FailAllBacked(s: State, err: Err)
    requires !(exists k | 0 <= k < |s.resolutions| :: ReportedClean(s.resolutions[k]))
    requires s.current.None? && s.pending == [] && WritesLogged(|s.accepted|, s.queue, Logs(s.transports))
    requires HasNoSideEffects(err) ==> EarlierFailedCleanly(false, s.queue, s.transports, None, [], s.late)
    ensures ReportsBacked(FailAll(s, err))
  {
    hide CloseSome, ReleaseAll, HasNoSideEffects, IsNoSideEffectsError, FailedCleanly;
    var s' := FailAll(s, err);
    forall k | 0 <= k < |s'.resolutions| && ReportedClean(s'.resolutions[k]) ensures Over(s') && Backed(s', s'.resolutions[k].id) {
      var i := k - |s.resolutions|;
      assert s'.resolutions == s.resolutions + FailEach(s.queue, err) && i >= 0;
      PriorUncertaintyDecides(err, s.queue[i].priorUncertainty);
      EntryBacked(s, i, Referenced(s));
    }
  }

  lemma EntryBacked(s: State, i: nat, doomed: set<nat>)
    requires i < |s.queue| && !s.queue[i].priorUncertainty && WritesLogged(|s.accepted|, s.queue, Logs(s.transports))
    requires EarlierFailedCleanly(false, s.queue, s.transports, None, [], s.late)
    ensures forall t | 0 <= t < |s.transports| && s.queue[i].id in CloseSome(s.transports, doomed)[t].written ::
              FailedCleanly(CloseSome(s.transports, doomed)[t]) || Writing(s.queue[i].id, t) in s.late
  {
    hide IsNoSideEffectsError;
    forall t | 0 <= t < |s.transports| && s.queue[i].id in CloseSome(s.transports, doomed)[t].written
      ensures FailedCleanly(CloseSome(s.transports, doomed)[t]) || Writing(s.queue[i].id, t) in s.late
    {
      assert Logs(s.transports)[t] == s.transports[t].written;
      assert t in s.queue[i].writtenOn;
    }
  }

  /** A clean failure that is given up on leaves its transport among those that failed cleanly. */
  lemma CleanClaim(s: State, c: Claim)
    requires s.pending == [c] && RetiredOnce(s.transports, s.current, s.pending) && IsNoSideEffectsError(c.err)
    requires EarlierFailedCleanly(s.cfg.onlyNoSideEffects, s.queue, s.transports, s.current, s.pending, s.late)
    ensures s.current.None? && EarlierFailedCleanly(false, s.queue, s.transports, None, [], s.late)
  {
    hide IsNoSideEffectsError;
    assert FailedCleanly(s.transports[c.transport]);
  }

  lemma GivenUpFor(s: State, c: Claim)
    requires Judge(s, c).GiveUp? && HasNoSideEffects(Judge(s, c).err)
    ensures IsNoSideEffectsError(c.err)
  {
  }

  lemma ResolveBacked(s: State)
    requires Inv(s) && !(exists k | 0 <= k < |s.resolutions| :: ReportedClean(s.resolutions[k]))
    ensures ReportsBacked(DoResolve(s))
  {
    hide InOrder, AcksIncrease, RetiredOnce, SentPrefix, WrittenSent, WritesLogged, RefsExact, UnusedClosed,
      WritesCounted, EarlierFailedCleanly, DoubtTracked, CapacityExact, WritingWell, WritingClean, LateWell;
    hide ReportedClean, HasNoSideEffects, IsNoSideEffectsError, TransportErr, Judge, FailAll, RecordFailure, AfterFailure;
    if s.pending != [] {
      var c := s.pending[0];
      TakeClaim(s);
      var s1 := s.(pending := []);
      assert s.pending[1..] == [];
      var v := Judge(s1, c);
      if v.GiveUp? {
        if HasNoSideEffects(v.err) { GivenUpFor(s1, c); CleanClaim(s, c); }
        FailAllBacked(s1.(sinceAck := s.sinceAck + v.extra), v.err);
      } else {
        RecordKeeps(s1, c);
      }
    }
  }

  lemma RecordKeeps(s: State, c: Claim)
    ensures RecordFailure(s, c).resolutions == s.resolutions
  {
  }

  lemma OpenBacked(s: State, failure: Option<Err>)
    requires Inv(s) && !(exists k | 0 <= k < |s.resolutions| :: ReportedClean(s.resolutions[k]))
    ensures ReportsBacked(DoOpen(s, failure))
  {
    hide InOrder, AcksIncrease, RetiredOnce, SentPrefix, WrittenSent, WritesLogged, RefsExact, UnusedClosed,
      WritesCounted, DoubtTracked, CapacityExact, WritingWell, WritingClean, LateWell;
    hide ReportedClean, HasNoSideEffects, IsNoSideEffectsError, FailedCleanly, FailAll, IsRetryableErr;
    if CanOpen(s) && failure.Some? {
      assert EarlierFailedCleanly(false, s.queue, s.transports, None, [], s.late);
      FailAllBacked(s, failure.value);
      FailAllBacked(s.(sinceAck := s.sinceAck + 1), Exhausted(failure.value));
    }
  }

  // ---- every run ----

  lemma StepBacked(s: State, a: Action)
    requires Inv(s) && ReportsBacked(s)
    ensures ReportsBacked(Step(s, a))
  {
    hide Inv, Over, Backed, ReportedClean, Step;
    if k :| 0 <= k < |s.resolutions| && ReportedClean(s.resolutions[k]) {
      ClosedIsClosing(s);
      OverKeeps(s, a, s.resolutions[k].id);
      forall j | 0 <= j < |s.resolutions| && ReportedClean(s.resolutions[j]) ensures Backed(Step(s, a), s.resolutions[j].id) {
        OverKeeps(s, a, s.resolutions[j].id);
      }
    } else if a.Open? {
      OpenBacked(s, a.failure);
      StepIs(s, a);
    } else if a.Resolve? {
      ResolveBacked(s);
      StepIs(s, a);
    } else {
      OthersReportNothing(s, a);
      NothingIsBacked(s, Step(s, a));
    }
  }

  lemma NothingIsBacked(s: State, s': State)
    requires NothingNew(s, s') && !(exists k | 0 <= k < |s.resolutions| :: ReportedClean(s.resolutions[k]))
    ensures ReportsBacked(s')
  {
    hide ReportedClean, Over, Backed;
  }

  lemma ClosedIsClosing(s: State)
    requires Inv(s)
    ensures Over(s) ==> s.closing
  {
  }

  lemma StepIs(s: State, a: Action)
    ensures a.Open? ==> Step(s, a) == DoOpen(s, a.failure)
    ensures a.Resolve? ==> Step(s, a) == DoResolve(s)
  {
    hide DoOpen, DoResolve;
  }

  lemma {:induction false} RunBacked(s: State, actions: seq<Action>)
    requires Inv(s) && ReportsBacked(s)
    ensures ReportsBacked(Run(s, actions))
    decreases |actions|
  {
    hide Inv, ReportsBacked;
    if actions != [] {
      var before := actions[..|actions| - 1];
      RunBacked(s, before);
      RunInv(s, before);
      StepBacked(Run(s, before), actions[|actions| - 1]);
    }
  }

  /** A report of no side effects is right, every transport the entry was ever written on having failed
      cleanly, if and only if none of those writes was late: signalled on a transport already retired, by an
      unclean failure that has been judged or on advice. */
  lemma CleanReportRightIff(s: State, i: nat)
    requires Reachable(s) && i < |s.resolutions| && ReportedClean(s.resolutions[i])
    ensures (forall t: nat | i in Log(s, t) :: FailedCleanly(s.transports[t])) <==> (forall t: nat :: Writing(i, t) !in s.late)
  {
    ReachableInv(s);
    ReachableBacked(s);
    hide AcksIncrease, RetiredOnce, SentPrefix, WrittenSent, WritesLogged, RefsExact, UnusedClosed,
      WritesCounted, EarlierFailedCleanly, DoubtTracked, CapacityExact, WritingWell, WritingClean, FailedCleanly, ReportedClean;
    assert s.resolutions[i].id == i;
    forall t: nat | Writing(i, t) in s.late ensures i in Log(s, t) && !FailedCleanly(s.transports[t]) {}
  }

  lemma ReachableBacked(s: State)
    requires Reachable(s)
    ensures ReportsBacked(s)
  {
    hide Inv, ReportsBacked;
    var cfg, maxBytes, maxItems, actions :| s == Run(Init(cfg, maxBytes, maxItems), actions);
    InitInv(cfg, maxBytes, maxItems);
    NothingYet(cfg, maxBytes, maxItems);
    RunBacked(Init(cfg, maxBytes, maxItems), actions);
  }

  lemma NothingYet(cfg: Config, maxBytes: nat, maxItems: nat)
    ensures ReportsBacked(Init(cfg, maxBytes, maxItems))
  {
  }

  // ---- a report that is wrong ----

  /** The parts of a state with two entries and one transport that the run below goes through. */
  ghost predicate Two(s: State, q: seq<Entry>, tr: Transport, pending: seq<Claim>, writing: Option<Writing>, attempt: nat) {
    && s.cfg == Config(3, false) && s.attempt == attempt && !s.cancelled && !s.closed && |s.accepted| == 2
    && s.queue == q && s.transports == [tr] && s.pending == pending && s.writing == writing && s.resolutions == []
  }

  ghost predicate InPass(s: State, current: Option<nat>) {
    s.pass == Some(0) && s.passEnd == 2 && s.current == current && (current.None? ==> 0 in s.refs)
  }

  function Unsent(id: nat): Entry { Entry(id, Input(1, 8, false), false, [], false, []) }

  function Sent(id: nat, prior: bool): Entry { Entry(id, Input(1, 8, false), true, [0], prior, [0]) }

  lemma TwoReserved(s: State, q: seq<Entry>)
    requires |q| <= 1 && (q == [] || q == [Unsent(0)]) && s.cfg == Config(3, false) && s.queue == q && |s.accepted| == |q| && s.reserved == []
    requires s.capacity == Tracker(1000, 10, 8 * |q|, |q|, false) && !s.cancelled && !s.closing
    ensures var s' := Step(Step(s, Reserve(Input(1, 8, false))), Enqueue(0));
            && s'.queue == q + [Unsent(|q|)] && s'.reserved == [] && |s'.accepted| == |q| + 1
            && s'.capacity == Tracker(1000, 10, 8 * |q| + 8, |q| + 1, false)
            && s' == s.(queue := s'.queue, accepted := s'.accepted, capacity := s'.capacity)
  {
    var s1 := Step(s, Reserve(Input(1, 8, false)));
    assert s1 == s.(reserved := [Input(1, 8, false)], capacity := s1.capacity);
  }

  lemma TwoOpened(s: State)
    requires s.cfg == Config(3, false) && s.attempt == 0 && !s.cancelled && !s.closed && |s.accepted| == 2 && s.current.None? && s.pass.None?
    requires s.queue == [Unsent(0), Unsent(1)] && s.transports == [] && s.pending == [] && s.writing.None? && s.resolutions == []
    ensures var s' := Step(Step(s, Open(None)), BeginPass);
            Two(s', [Unsent(0), Unsent(1)], OPENED, [], None, 0) && InPass(s', Some(0))
  {
    var s1 := Step(s, Open(None));
    assert s1 == s.(transports := [OPENED], current := Some(0));
  }

  lemma TwoQueued()
    ensures var s := Step(Step(Step(Step(Init(Config(3, false), 1000, 10), Reserve(Input(1, 8, false))), Enqueue(0)), Reserve(Input(1, 8, false))), Enqueue(0));
            && Two(Step(Step(s, Open(None)), BeginPass), [Unsent(0), Unsent(1)], OPENED, [], None, 0)
            && InPass(Step(Step(s, Open(None)), BeginPass), Some(0))
  {
    hide Step, Two, InPass;
    var init := Init(Config(3, false), 1000, 10);
    TwoReserved(init, []);
    var s2 := Step(Step(init, Reserve(Input(1, 8, false))), Enqueue(0));
    assert s2.queue == [Unsent(0)];
    TwoReserved(s2, [Unsent(0)]);
    var s4 := Step(Step(s2, Reserve(Input(1, 8, false))), Enqueue(0));
    assert s4.queue == [Unsent(0), Unsent(1)];
    TwoOpened(s4);
  }

  lemma TwoFirst(s: State)
    requires Two(s, [Unsent(0), Unsent(1)], OPENED, [], None, 0) && InPass(s, Some(0))
    ensures var s' := Step(Step(s, Mark), FinishWrite(Written));
            && Two(s', [Sent(0, false), Unsent(1)], OPENED.(pendingWrites := 1, written := [0]), [], None, 0)
            && InPass(s', Some(0)) && 0 in s'.refs
  {
    FirstUnsentIs(s.queue, 0, 0);
    var s1 := Step(s, Mark);
    assert s1 == MarkSent(s, 0);
    var s2 := Step(s1, FinishWrite(Written));
    assert s2 == LogWrite(s1);
    assert s2.queue[0] == Sent(0, false) && s2.queue[1] == Unsent(1);
    assert s2.transports[0] == OPENED.(pendingWrites := 1, written := [] + [0]);
    assert [] + [0] == [0];
  }

  /** The failure is claimed and judged before the second entry is marked. */
  lemma TwoJudged(s: State, err: Err)
    requires Two(s, [Sent(0, false), Unsent(1)], OPENED.(pendingWrites := 1, written := [0]), [], None, 0)
    requires InPass(s, Some(0)) && 0 in s.refs && err == Network("reset")
    ensures var s' := Step(Step(s, TransportFails(0, err)), Resolve);
            && Two(s', [Sent(0, true).(started := false), Unsent(1)],
                   OPENED.(pendingWrites := 1, written := [0], retirements := [FailedWith(err)]), [], None, 1)
            && InPass(s', None)
  {
    hide FailAll, Carried;
    assert [] + [FailedWith(err)] == [FailedWith(err)] && [] + [Claim(0, err)] == [Claim(0, err)];
    var s1 := Step(s, TransportFails(0, err));
    assert s1.pending == [Claim(0, err)] && s1.pending[1..] == [];
    assert s1.transports == [OPENED.(pendingWrites := 1, written := [0], retirements := [FailedWith(err)])];
    assert Judge(s1.(pending := []), Claim(0, err)) == Retry(1);
    assert AfterFailure(s.queue, Claim(0, err)) == [Sent(0, true).(started := false), Unsent(1)];
  }

  lemma TwoLate(s: State, first: Entry, tr: Transport)
    requires Two(s, [first, Unsent(1)], tr, [], None, 1) && InPass(s, None) && first.id == 0 && first.sentOn == [0]
    requires tr.isOpen && tr.written == [0] && tr.retirements == [FailedWith(Network("reset"))]
    ensures var s' := Step(Step(s, Mark), FinishWrite(Written));
            && Two(s', [first, Sent(1, false)], tr.(pendingWrites := tr.pendingWrites + 1, written := [0] + [1]), [], None, 1)
            && InPass(s', None) && Writing(1, 0) in s'.late
  {
    FirstUnsentIs(s.queue, 0, 1);
    var s1 := Step(s, Mark);
    assert s1 == MarkSent(s, 0);
    var s2 := Step(s1, FinishWrite(Written));
    assert s2 == LogWrite(s1);
    assert s2.queue[0] == first && s2.queue[1] == Sent(1, false);
  }

  lemma TwoGivenUp(s: State, first: Entry, tr: Transport, err: Err)
    requires Two(s, [first, Sent(1, false)], tr, [], None, 1) && InPass(s, None) && first.id == 0
    requires err == Api(S2Error(StreamNotFound, 404, FromServer))
    ensures var s' := Step(Step(s, EndPass), Open(Some(err)));
            && |s'.resolutions| == 2 && s'.resolutions[1] == Resolution(1, Failed(err, err)) && s'.late == s.late
            && |s'.transports| == 1 && s'.transports[0].written == tr.written && s'.transports[0].retirements == tr.retirements
  {
    hide FailAll;
    assert Lookup(StreamNotFound) == Some(CodeInfo(404, false, true));
    var s1 := Step(s, EndPass);
    assert Step(s1, Open(Some(err))) == FailAll(s1, err);
    GivenUp(s1, err);
  }

  lemma GivenUp(s: State, err: Err)
    requires |s.queue| == 2 && s.queue[1] == Sent(1, false) && |s.transports| == 1 && s.resolutions == []
    ensures var s' := FailAll(s, err);
            && |s'.resolutions| == 2 && s'.resolutions[1] == Resolution(1, Failed(err, err)) && s'.late == s.late
            && |s'.transports| == 1 && s'.transports[0].written == s.transports[0].written
            && s'.transports[0].retirements == s.transports[0].retirements
  {
    hide ReleaseAll, HasNoSideEffects, Referenced;
    assert FailEach(s.queue, err)[1] == Resolution(1, Failed(err, err));
  }

  /** Wrong reports happen: a transport fails while a pass on it is under way, the judgement puts the entry
      already sent there in doubt and retries, and the pass then marks and writes the next entry on the same
      transport. When the reopening fails for good that entry is reported free of side effects although it
      was written on a transport that did not fail cleanly. */
  lemma LateWriteMisreported() returns (s: State)
    ensures Reachable(s) && |s.resolutions| == 2 && ReportedClean(s.resolutions[1])
    ensures 1 in Log(s, 0) && !FailedCleanly(s.transports[0]) && Writing(1, 0) in s.late
  {
    hide Step, Two, InPass, ReportedClean, FailedCleanly;
    var err := Network("reset");
    var final := Api(S2Error(StreamNotFound, 404, FromServer));
    var init := Init(Config(3, false), 1000, 10);
    ghost var done: seq<Action> := [];
    s := init;
    s, done := Follow(init, s, done, Reserve(Input(1, 8, false)));
    s, done := Follow(init, s, done, Enqueue(0));
    s, done := Follow(init, s, done, Reserve(Input(1, 8, false)));
    s, done := Follow(init, s, done, Enqueue(0));
    s, done := Follow(init, s, done, Open(None));
    s, done := Follow(init, s, done, BeginPass);
    TwoQueued();
    TwoFirst(s);
    s, done := Follow(init, s, done, Mark);
    s, done := Follow(init, s, done, FinishWrite(Written));
    TwoJudged(s, err);
    s, done := Follow(init, s, done, TransportFails(0, err));
    s, done := Follow(init, s, done, Resolve);
    var first := Sent(0, true).(started := false);
    var tr := OPENED.(pendingWrites := 1, written := [0], retirements := [FailedWith(err)]);
    TwoLate(s, first, tr);
    s, done := Follow(init, s, done, Mark);
    s, done := Follow(init, s, done, FinishWrite(Written));
    TwoGivenUp(s, first, tr.(pendingWrites := 2, written := [0] + [1]), final);
    s, done := Follow(init, s, done, EndPass);
    s, done := Follow(init, s, done, Open(Some(final)));
    FinalIsClean(final, err, s.transports[0]);
  }

  lemma FinalIsClean(final: Err, err: Err, tr: Transport)
    requires final == Api(S2Error(StreamNotFound, 404, FromServer)) && err == Network("reset") && tr.retirements == [FailedWith(err)]
    ensures ReportedClean(Resolution(1, Failed(final, final))) && !FailedCleanly(tr)
  {
    assert Lookup(StreamNotFound) == Some(CodeInfo(404, false, true));
  }
}
