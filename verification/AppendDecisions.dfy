/** What an append session does with what happens to it: each outcome tied to the state before by
    conditions on it, whatever the code that decides. */
module AppendDecisions {
  import opened Options
  import opened Errors
  import opened Capacity
  import opened AppendModel
  import opened AppendInvariant
  import opened AppendSteps
  import opened AppendTheorems

  /** The session went down: every queued entry failed for `cause`, in order, its report weighed by its
      own doubt, and no transport is left open. */
  ghost predicate AllFailed(s: State, t: State, cause: Err) {
    && t.closed && t.cancelled && t.queue == []
    && |t.resolutions| == |s.resolutions| + |s.queue| && s.resolutions <= t.resolutions
    && (forall i | 0 <= i < |s.queue| :: FailedFor(t.resolutions[|s.resolutions| + i], s.queue[i], cause))
    && (forall u | 0 <= u < |t.transports| :: !t.transports[u].isOpen)
  }

  ghost predicate FailedFor(r: Resolution, e: Entry, cause: Err) {
    && r.id == e.id && r.outcome.Failed? && r.outcome.cause == cause && AsS2(r.outcome.reported) == AsS2(cause)
    && (HasNoSideEffects(r.outcome.reported) <==> HasNoSideEffects(cause) && !e.priorUncertainty)
  }

  /** Nothing was resolved, and the same entries are queued. */
  ghost predicate GoesOn(s: State, t: State) {
    && t.closed == s.closed && t.cancelled == s.cancelled && t.resolutions == s.resolutions && t.accepted == s.accepted
    && |t.queue| == |s.queue| && forall i | 0 <= i < |s.queue| :: SameEntry(s.queue[i], t.queue[i])
  }

  ghost predicate SameEntry(e: Entry, f: Entry) {
    f.id == e.id && f.input == e.input && f.sentOn == e.sentOn && f.writtenOn == e.writtenOn
  }

  lemma FailAllFails(s: State, err: Err)
    requires UnusedClosed(s.transports, s.current, s.refs)
    ensures AllFailed(s, FailAll(s, err), err)
  {
    hide ReleaseAll, HasNoSideEffects, UnusedClosed, CloseSome, Referenced;
    FailAllCloses(s, err);
    var t := FailAll(s, err);
    forall i | 0 <= i < |s.queue| ensures FailedFor(t.resolutions[|s.resolutions| + i], s.queue[i], err) {
      PriorUncertaintyDecides(err, s.queue[i].priorUncertainty);
      assert t.resolutions[|s.resolutions| + i] == FailEach(s.queue, err)[i];
    }
  }

  lemma FailAllCloses(s: State, err: Err)
    requires UnusedClosed(s.transports, s.current, s.refs)
    ensures var t := FailAll(s, err); forall u | 0 <= u < |t.transports| :: !t.transports[u].isOpen
  {
    hide ReleaseAll, FailEach;
  }

  /** `AllFailed` looks at the queue and the resolutions before only. */
  lemma FailedFrom(s: State, s1: State, t: State, cause: Err)
    requires AllFailed(s1, t, cause) && s1.queue == s.queue && s1.resolutions == s.resolutions
    ensures AllFailed(s, t, cause)
  {
    hide FailedFor;
  }

  // ---- a claimed failure ----

  /** The noSideEffects policy has nothing against sending again: no write of the failed transport is
      unanswered, unless the failure is clean, and behind the head nothing unconditional was sent. */
  ghost predicate PolicyAgrees(s: State, c: Claim) {
    s.cfg.onlyNoSideEffects ==>
      && (IsNoSideEffectsError(c.err) || (IsTransport(s, c.transport) && s.transports[c.transport].pendingWrites == 0))
      && (forall i | 1 <= i < |s.queue| && s.queue[i].sentOn != [] :: s.queue[i].input.conditional)
  }

  ghost predicate Repeatable(s: State, c: Claim) {
    PolicyAgrees(s, c) && (AsS2(c.err).Some? ==> IsRetryable(AsS2(c.err).value))
  }

  ghost predicate MayRetry(s: State, c: Claim) {
    IsServerDraining(c.err) || (Repeatable(s, c) && s.sinceAck < MaxAttempts(s) - 1)
  }

  /** What a retry leaves: clocks stopped, doubt noted where a write may have taken effect, and the
      failure charged unless it was a drain notice. */
  ghost predicate Retried(s: State, t: State, c: Claim) {
    && GoesOn(s, t) && t.current == s.current && t.transports == s.transports
    && (forall i | 0 <= i < |t.queue| ::
          && !t.queue[i].started
          && (t.queue[i].priorUncertainty <==> s.queue[i].priorUncertainty || (!IsNoSideEffectsError(c.err) && c.transport in s.queue[i].sentOn)))
    && t.attempt == s.attempt + (if IsServerDraining(c.err) then 0 else 1)
  }

  /** A claimed failure is retried if and only if it is a drain notice, or may be repeated with attempts
      left; otherwise every entry fails with it, or with the exhausted budget when that alone is the reason. */
  lemma ResolveDecides(s: State, c: Claim)
    requires Reachable(s) && s.pending == [c]
    ensures var t := Step(s, Resolve);
            && t.pending == []
            && (t.closed <==> s.closed || !MayRetry(s, c))
            && (MayRetry(s, c) ==> Retried(s, t, c))
            && (!MayRetry(s, c) ==> AllFailed(s, t, if Repeatable(s, c) then Exhausted(c.err) else c.err))
  {
    hide Inv, FailedFor, SameEntry, Judge, MayRetry, Repeatable, FailAll, RecordFailure, AfterFailure, Step, IsServerDraining;
    ReachableInv(s);
    TakeClaim(s);
    Unused(s);
    VerdictIs(s, c);
    var s1 := s.(pending := []);
    StepResolves(s, c);
    if MayRetry(s, c) {
      RetryLeaves(s, c);
    } else {
      var v := Judge(s1, c);
      var s2 := s1.(sinceAck := s1.sinceAck + v.extra);
      FailAllFails(s2, v.err);
      FailedFrom(s, s2, FailAll(s2, v.err), v.err);
      FailAllEnds(s2, v.err);
    }
  }

  lemma Unused(s: State)
    requires Inv(s)
    ensures UnusedClosed(s.transports, s.current, s.refs)
  {
  }

  lemma FailAllEnds(s: State, err: Err)
    ensures FailAll(s, err).closed && FailAll(s, err).pending == s.pending
  {
  }

  lemma StepResolves(s: State, c: Claim)
    requires s.pending == [c]
    ensures var s1 := s.(pending := []);
            match Judge(s1, c)
            case GiveUp(err, extra) => Step(s, Resolve) == FailAll(s1.(sinceAck := s1.sinceAck + extra), err)
            case Retry(extra) =>
              Step(s, Resolve) == RecordFailure(s1, c).(queue := AfterFailure(s1.queue, c), attempt := s1.attempt + extra, sinceAck := s1.sinceAck + extra)
  {
    hide FailAll, AfterFailure, Judge, RecordFailure;
    assert s.pending[1..] == [];
  }

  /** The verdict on a claim, from the conditions. */
  lemma VerdictIs(s: State, c: Claim)
    requires Inv(s) && s.pending == [c]
    ensures var v := Judge(s.(pending := []), c);
            v == if MayRetry(s, c) then Retry(if IsServerDraining(c.err) then 0 else 1)
                 else if Repeatable(s, c) then GiveUp(Exhausted(c.err), 1) else GiveUp(c.err, 0)
  {
    TakeClaim(s);
    hide Inv, IsServerDraining, IsNoSideEffectsError, IsRetryable, AsS2;
  }

  lemma RetryLeaves(s: State, c: Claim)
    requires Inv(s) && s.pending == [c]
    ensures var extra := if IsServerDraining(c.err) then 0 else 1;
            var t := RecordFailure(s.(pending := []), c).(queue := AfterFailure(s.queue, c), attempt := s.attempt + extra, sinceAck := s.sinceAck + extra);
            Retried(s, t, c) && t.pending == [] && t.closed == s.closed
  {
    hide Inv, IsServerDraining, IsNoSideEffectsError, Carried, TransportErr;
    TakeClaim(s);
    if IsServerDraining(c.err) { DrainIsClean(c.err); }
    AfterIs(s.queue, c);
  }

  lemma AfterIs(q: seq<Entry>, c: Claim)
    requires IsServerDraining(c.err) ==> IsNoSideEffectsError(c.err)
    ensures var r := AfterFailure(q, c);
            forall i | 0 <= i < |q| :: r[i] == q[i].(started := false,
              priorUncertainty := q[i].priorUncertainty || (!IsNoSideEffectsError(c.err) && c.transport in q[i].sentOn))
  {
    hide IsServerDraining, IsNoSideEffectsError;
  }

  /** So a failure that the service calls final is never repeated. */
  lemma FinalFailuresEndTheSession(s: State, c: Claim)
    requires Reachable(s) && s.pending == [c] && !IsServerDraining(c.err) && AsS2(c.err).Some? && !IsRetryable(AsS2(c.err).value)
    ensures AllFailed(s, Step(s, Resolve), c.err)
  {
    ResolveDecides(s, c);
  }

  // ---- opening ----

  ghost predicate MayOpen(s: State) {
    !s.cancelled && s.pass.None? && s.queue != [] && s.current.None? && s.pending == []
  }

  /** A transport that opens is fresh and in use; a start that fails is repeated exactly while the error
      is retryable with attempts left, and otherwise fails every entry. */
  lemma OpenDecides(s: State, failure: Option<Err>)
    requires Reachable(s)
    ensures var t := Step(s, Open(failure));
            && (!MayOpen(s) ==> t == s)
            && (MayOpen(s) && failure.None? ==>
                  && GoesOn(s, t) && t.current == Some(|s.transports|) && t.attempt == s.attempt
                  && t.transports == s.transports + [Transport(true, 0, NoAdvice, [], 0, [])])
            && (MayOpen(s) && failure.Some? ==>
                  if IsRetryableErr(failure.value) && s.sinceAck < MaxAttempts(s) - 1
                  then GoesOn(s, t) && t.current.None? && t.attempt == s.attempt + 1
                  else AllFailed(s, t, if IsRetryableErr(failure.value) then Exhausted(failure.value) else failure.value))
  {
    hide Inv, FailedFor, SameEntry, FailAll, IsRetryableErr;
    ReachableInv(s);
    Unused(s);
    SameEntries(s);
    if MayOpen(s) && failure.Some? {
      OpenBudget(s);
      var err := failure.value;
      FailAllFails(s, err);
      var s1 := s.(sinceAck := s.sinceAck + 1);
      FailAllFails(s1, Exhausted(err));
      FailedFrom(s, s1, FailAll(s1, Exhausted(err)), Exhausted(err));
    }
  }

  lemma SameEntries(s: State)
    ensures GoesOn(s, s)
    ensures forall e :: SameEntry(e, e)
  {
  }

  lemma OpenBudget(s: State)
    requires Inv(s) && !s.cancelled
    ensures s.sinceAck == s.attempt <= MaxAttempts(s) - 1 && !s.closed
  {
  }

  // ---- acknowledgements ----

  /** An ack of a transport that the head does not list, or one that ends no further than the last ack,
      changes nothing; one that covers the head's records and ends further resolves the head and gives
      the whole retry budget back; any other fails every entry. */
  lemma AckDecides(s: State, t: nat, ack: Option<Ack>)
    requires Reachable(s) && t < |s.transports|
    ensures var u := Step(s, AckArrives(t, ack));
            var listed := s.queue != [] && t in s.queue[0].sentOn;
            var further := ack.Some? && (s.lastAck.Some? ==> ack.value.end > s.lastAck.value.end);
            if !listed || (ack.Some? && !further)
            then GoesOn(s, u) && u.lastAck == s.lastAck && u.attempt == s.attempt && u.current == s.current
            else if further && ack.value.end == ack.value.start + s.queue[0].input.count
            then u.queue == s.queue[1..] && u.resolutions == s.resolutions + [Resolution(s.queue[0].id, Acked(ack.value))]
                 && u.lastAck == ack && u.attempt == 0 && u.sinceAck == 0 && u.closed == s.closed && u.current == s.current
            else AllFailed(s, u, Plain("append ack invariant violated"))
  {
    hide Inv, FailedFor, SameEntry, FailAll;
    ReachableInv(s);
    var s1 := CountAck(s, t);
    CountAckInv(s, t);
    Unused(s1);
    SameEntries(s);
    var err := Plain("append ack invariant violated");
    FailAllFails(s1, err);
    FailedFrom(s, s1, FailAll(s1, err), err);
    hide ReleaseRefs, LastReleased, CloseSome, AllFailed;
  }

  // ---- the attempt counter ----

  ghost predicate AckedIn(s: State, t: State) {
    |t.resolutions| > |s.resolutions| && t.resolutions[|s.resolutions|].outcome.Acked?
  }

  /** A failure that costs an attempt: one that is no drain notice and is retried, or a failed start. */
  ghost predicate Costs(s: State, a: Action) {
    || (a.Resolve? && s.pending != [] && !IsServerDraining(s.pending[0].err))
    || (a.Open? && a.failure.Some? && MayOpen(s))
  }

  ghost predicate SameAttempt(s: State, t: State) {
    t.attempt == s.attempt && t.resolutions == s.resolutions && t.closed == s.closed
  }

  lemma RetireAttempt(s: State, cause: Cause, claims: seq<Claim>, t: nat)
    ensures SameAttempt(s, CloseIfUnused(s, t))
    ensures s.current.Some? && IsTransport(s, s.current.value) ==> SameAttempt(s, RetireCurrent(s, cause, claims))
  {
    hide CloseSome;
  }

  lemma ErrorAttempt(s: State, t: nat, err: Err)
    ensures SameAttempt(s, SessionError(s, t, err))
  {
    hide RetireCurrent, CloseIfUnused, SameAttempt;
    SameAttemptSelf(s);
    RetireAttempt(s, FailedWith(err), if s.current.Some? then [Claim(s.current.value, err)] else [], t);
  }

  lemma SameAttemptSelf(s: State)
    ensures SameAttempt(s, s)
  {
  }

  lemma EndAttempt(s: State, t: nat)
    ensures SameAttempt(s, DoEndCleanly(s, t)) && SameAttempt(s, DoTimeOut(s))
  {
    hide RetireCurrent, CloseIfUnused, SessionError, HasUnacked, SameAttempt;
    SameAttemptSelf(s);
    ErrorAttempt(s, t, Plain("append session ended before acknowledging all appends"));
    RetireAttempt(s, MovedOnAdvice, [], t);
    if s.current.Some? { RetireAttempt(s, TimedOut(TIMEOUT_ERROR), [Claim(s.current.value, TIMEOUT_ERROR)], t); }
  }

  lemma FinishAttempt(s: State, w: Write)
    ensures SameAttempt(s, DoFinishWrite(s, w))
  {
    hide SessionError, DoEndCleanly, WrittenTo, RetiredUncleanly, TransportErr;
    if s.writing.Some? && IsTransport(s, s.writing.value.transport) && !w.Written? {
      ErrorAttempt(StopPass(s), s.writing.value.transport, w.err);
      ErrorAttempt(StopPass(LogWrite(s)), s.writing.value.transport, w.err);
    }
  }

  lemma QuietAttempt(s: State, a: Action)
    requires a.Reserve? || a.Enqueue? || a.BeginPass? || a.Mark? || a.EndPass? || a.Advise? || a.AnswerAdvice? || a.TransportCloses? || a.CancelContext?
             || a.CloseStarts? || a.PumpDrains?
    ensures SameAttempt(s, Step(s, a))
  {
    hide TryReserve, Release, CloseSome, HoldsInputs;
  }

  lemma StopAttempt(s: State)
    ensures Step(s, PumpStops) == s || Step(s, PumpStops).closed
    ensures Step(s, CloseEnds) == s || Step(s, CloseEnds).closed
  {
    hide ReleaseAll, FailEach, CloseSome, Bytes;
  }

  lemma OtherAttempt(s: State, a: Action)
    requires !a.Open? && !a.Resolve? && !a.AckArrives?
    ensures Step(s, a).closed || SameAttempt(s, Step(s, a))
    ensures s.closed ==> Step(s, a).closed
  {
    hide SessionError, DoReserve, DoEnqueue, DoBeginPass, DoMark, DoEndPass, DoAck, DoEndCleanly, DoFinishWrite, DoTimeOut, DoCloseEnds, SetAdvice,
      FailAll, CloseSome, TransportErr;
    match a
    case EndCleanly(t) => EndAttempt(s, t);
    case TransportFails(t, err) => ErrorAttempt(s, t, err);
    case TimeOut => EndAttempt(s, 0);
    case FinishWrite(w) => FinishAttempt(s, w);
    case PumpStops => StopAttempt(s);
    case CloseEnds => StopAttempt(s);
    case _ => QuietAttempt(s, a);
  }

  /** While the session is up, an accepted ack clears the counter, a failure that costs an attempt adds
      one, and nothing else moves it. */
  lemma AttemptMoves(s: State, a: Action)
    requires Reachable(s)
    ensures var t := Step(s, a);
            && (s.closed ==> t.closed)
            && (!t.closed ==> t.attempt == if AckedIn(s, t) then 0 else if Costs(s, a) then s.attempt + 1 else s.attempt)
  {
    hide Step, IsServerDraining, IsRetryableErr;
    match a
    case Open(failure) => OpenDecides(s, failure);
    case Resolve => ResolveMoves(s);
    case AckArrives(t, ack) => AckMoves(s, t, ack);
    case _ => OtherAttempt(s, a);
  }

  lemma ResolveMoves(s: State)
    requires Reachable(s)
    ensures var t := Step(s, Resolve);
            && (s.closed ==> t.closed) && (!t.closed ==> t.resolutions == s.resolutions)
            && (!t.closed ==> t.attempt == s.attempt + if s.pending != [] && !IsServerDraining(s.pending[0].err) then 1 else 0)
  {
    hide MayRetry, AllFailed, IsServerDraining, SameEntry, Inv;
    if s.pending == [] {
      NothingPending(s);
    } else {
      ReachableInv(s);
      TakeClaim(s);
      ResolveDecides(s, s.pending[0]);
    }
  }

  lemma NothingPending(s: State)
    requires s.pending == []
    ensures Step(s, Resolve) == s
  {
  }

  lemma AckMoves(s: State, t: nat, ack: Option<Ack>)
    requires Reachable(s)
    ensures var u := Step(s, AckArrives(t, ack));
            && (s.closed ==> u.closed)
            && (!u.closed ==> u.attempt == if AckedIn(s, u) then 0 else s.attempt)
  {
    hide Step, SameEntry, FailedFor;
    if t < |s.transports| { AckDecides(s, t, ack); } else { NoTransport(s, t, ack); }
  }

  lemma NoTransport(s: State, t: nat, ack: Option<Ack>)
    requires t >= |s.transports|
    ensures Step(s, AckArrives(t, ack)) == s
  {
  }

  /** The failures charged since the last accepted ack, counted along the run. */
  ghost function Charged(s: State, actions: seq<Action>): nat
    decreases |actions|
  {
    if actions == [] then 0
    else
      var before := actions[..|actions| - 1];
      var last := Run(s, before);
      var a := actions[|actions| - 1];
      if AckedIn(last, Step(last, a)) then 0 else Charged(s, before) + if Costs(last, a) then 1 else 0
  }

  /** The attempt counter of a session that is up is that count, and it is below MaxAttempts. */
  lemma {:induction false} AttemptIsCharged(cfg: Config, maxBytes: nat, maxItems: nat, actions: seq<Action>)
    requires !Run(Init(cfg, maxBytes, maxItems), actions).closed
    ensures var s := Run(Init(cfg, maxBytes, maxItems), actions);
            s.attempt == s.sinceAck == Charged(Init(cfg, maxBytes, maxItems), actions) < MaxAttempts(s)
    decreases |actions|
  {
    hide Step, Costs, AckedIn, Inv;
    var init := Init(cfg, maxBytes, maxItems);
    var s := Run(init, actions);
    assert Reachable(s);
    ReachableInv(s);
    UpBudget(s);
    if actions != [] {
      var before := Run(init, actions[..|actions| - 1]);
      assert Reachable(before);
      AttemptMoves(before, actions[|actions| - 1]);
      AttemptIsCharged(cfg, maxBytes, maxItems, actions[..|actions| - 1]);
    }
  }

  lemma UpBudget(s: State)
    requires Inv(s) && !s.closed
    ensures s.attempt == s.sinceAck <= MaxAttempts(s) - 1
  {
  }

  // ---- transports that end ----

  /** The transport in use was given up as failed, with the failure left to resolve; nothing else changed
      but that the transport may have been closed. */
  ghost predicate Claimed(s: State, t: State, err: Err) {
    && s.current.Some? && t.current.None? && t.pending == [Claim(s.current.value, err)]
    && GoesOn(s, t) && t.queue == s.queue && t.attempt == s.attempt
  }

  ghost predicate Unmoved(s: State, t: State) {
    t.current == s.current && t.pending == s.pending && GoesOn(s, t) && t.queue == s.queue && t.attempt == s.attempt
  }

  /** The transport in use is out of use, with `claims` left to resolve. */
  ghost predicate Retired(s: State, t: State, claims: seq<Claim>) {
    t.current.None? && t.pending == claims && GoesOn(s, t) && t.queue == s.queue && t.attempt == s.attempt
  }

  lemma CloseLeaves(s: State, t: nat)
    ensures Unmoved(s, CloseIfUnused(s, t)) && CloseIfUnused(s, t).pass == s.pass && CloseIfUnused(s, t).writing == s.writing
    ensures Unmoved(s, s)
  {
    hide CloseSome, SameEntry;
    SameEntries(s);
  }

  lemma RetireLeaves(s: State, cause: Cause, claims: seq<Claim>)
    requires s.current.Some? && s.current.value < |s.transports| && s.pending == []
    ensures var t := RetireCurrent(s, cause, claims);
            Retired(s, t, claims) && t.pass == s.pass && t.writing == s.writing
  {
    hide CloseSome, SameEntry;
    SameEntries(s);
    assert [] + claims == claims;
  }

  lemma ErrorLeaves(s: State, t: nat, err: Err)
    requires t < |s.transports| && (s.current.Some? ==> s.current.value < |s.transports| && s.pending == [])
    ensures var u := SessionError(s, t, err);
            && (if s.current == Some(t) && !s.closed then Claimed(s, u, err) else Unmoved(s, u))
            && u.pass == s.pass && u.writing == s.writing
  {
    hide RetireCurrent, CloseIfUnused, SameEntry;
    CloseLeaves(s, t);
    if s.current.Some? { RetireLeaves(s, FailedWith(err), [Claim(s.current.value, err)]); }
  }

  lemma CurrentKnown(s: State)
    requires Inv(s)
    ensures s.current.Some? ==> s.current.value < |s.transports| && s.pending == []
  {
  }

  /** The failure of a transport is claimed exactly when it is the one in use. */
  lemma FailureDecides(s: State, t: nat, err: Err)
    requires Reachable(s) && t < |s.transports| && TransportErr(err)
    ensures var u := Step(s, TransportFails(t, err));
            if s.current == Some(t) && !s.closed then Claimed(s, u, err) else Unmoved(s, u)
  {
    hide Inv, TransportErr, SessionError, Claimed, Unmoved;
    ReachableInv(s);
    CurrentKnown(s);
    ErrorLeaves(s, t, err);
  }

  /** The head's deadline claims the transport in use with a timeout error. */
  lemma TimeOutDecides(s: State)
    requires Reachable(s)
    ensures var u := Step(s, TimeOut);
            if !s.cancelled && !s.closed && s.pass.None? && s.queue != [] && s.queue[0].started && s.current.Some?
            then Claimed(s, u, Api(S2Error(Unlisted("REQUEST_TIMEOUT"), 408, FromSdk))) else Unmoved(s, u)
  {
    hide Inv, RetireCurrent, SameEntry;
    ReachableInv(s);
    CurrentKnown(s);
    CloseLeaves(s, 0);
    if s.current.Some? { RetireLeaves(s, TimedOut(TIMEOUT_ERROR), [Claim(s.current.value, TIMEOUT_ERROR)]); }
  }

  /** After accepted advice a response that ends with nothing unacked moves on free of charge; with
      something unacked it is a failure. */
  lemma CleanEndDecides(s: State, t: nat)
    requires Reachable(s) && t < |s.transports|
    ensures var u := Step(s, EndCleanly(t));
            var unacked := exists i :: 0 <= i < |s.queue| && t in s.queue[i].sentOn;
            if s.current != Some(t) || s.closed || !s.transports[t].advice.Accepted? then Unmoved(s, u)
            else if unacked then Claimed(s, u, Plain("append session ended before acknowledging all appends"))
            else Retired(s, u, [])
  {
    hide Inv, RetireCurrent, SessionError, CloseIfUnused, Claimed, Unmoved, Retired;
    ReachableInv(s);
    CurrentKnown(s);
    CloseLeaves(s, t);
    ErrorLeaves(s, t, Plain("append session ended before acknowledging all appends"));
    if s.current.Some? { RetireLeaves(s, MovedOnAdvice, []); }
  }

  // ---- writes ----

  /** A write that comes back well is logged and the pass goes on; one that fails ends the pass and fails
      its transport, with the write logged if it may have gone out. */
  lemma WriteDecides(s: State, w: Write)
    requires Reachable(s) && s.writing.Some? && (!w.Written? ==> TransportErr(w.err))
    requires w.Written? ==> IsTransport(s, s.writing.value.transport) && s.transports[s.writing.value.transport].isOpen
    ensures var Writing(id, t) := s.writing.value;
            var u := Step(s, FinishWrite(w));
            && t < |s.transports| && Log(u, t) == (if w.FailedBefore? then Log(s, t) else Log(s, t) + [id])
            && u.writing.None? && u.pass == (if w.Written? then s.pass else None)
            && (if !w.Written? && s.current == Some(t) && !s.closed
                then u.current.None? && u.pending == [Claim(t, w.err)] else u.current == s.current && u.pending == s.pending)
  {
    hide Inv, TransportErr, LogWrite, SessionError, Log, StopPass;
    ReachableInv(s);
    CurrentKnown(s);
    WritingKnown(s);
    var t := s.writing.value.transport;
    LogFrame(s);
    StopIs(s);
    StopIs(LogWrite(s));
    WriteLogs(s, t);
    if !w.Written? {
      hide SameEntry, GoesOn;
      ErrorLeaves(StopPass(s), t, w.err);
      ErrorLeaves(StopPass(LogWrite(s)), t, w.err);
      SessionErrorLogs(StopPass(s), t, w.err);
      SessionErrorLogs(StopPass(LogWrite(s)), t, w.err);
    }
  }

  lemma StopIs(s: State)
    ensures StopPass(s) == s.(pass := None, writing := None)
  {
  }

  lemma WritingKnown(s: State)
    requires Inv(s) && s.writing.Some?
    ensures s.writing.value.transport < |s.transports| && s.pass == Some(s.writing.value.transport)
  {
  }

  // ---- reserving and submitting ----

  /** A reservation is granted exactly when the session is open and it fits beside the queued entries and
      the other reservations. */
  lemma ReserveDecides(s: State, input: Input)
    requires Reachable(s) && input.bytes > 0
    ensures var u := Step(s, Reserve(input));
            var bytes := Sum(Bytes(s.queue)) + Sum(InputBytes(s.reserved)) + input.bytes;
            var granted := && !s.capacity.closed && !s.cancelled && s.capacity.maxItems >= 0
                           && (s.capacity.maxBytes > 0 ==> bytes <= s.capacity.maxBytes)
                           && (s.capacity.maxItems > 0 ==> |s.queue| + |s.reserved| < s.capacity.maxItems);
            && (granted ==> u.reserved == s.reserved + [input] && u.capacity.curBytes == bytes)
            && (!granted ==> u == s)
            && u == s.(reserved := u.reserved, capacity := u.capacity)
  {
    hide Inv, CapacityExact, Bytes, InputBytes, TryReserve;
    ReachableInv(s);
    CapacityHeld(s);
    var held := Bytes(s.queue) + InputBytes(s.reserved);
    GrantedIff(s.capacity, held, input.bytes, s.cancelled);
    SumAppend(Bytes(s.queue), InputBytes(s.reserved));
    SumAppend(held, [input.bytes]);
    assert Sum([input.bytes]) == input.bytes;
  }

  lemma CapacityHeld(s: State)
    requires Inv(s)
    ensures Holds(s.capacity, Bytes(s.queue) + InputBytes(s.reserved)) && WithinLimits(s.capacity)
  {
  }

  /** A pass begins exactly when the pump is idle and a transport is in use that does not hold inputs back
      under advice. */
  lemma PassDecides(s: State)
    requires Reachable(s)
    ensures var u := Step(s, BeginPass);
            var begins := && !s.cancelled && s.pass.None? && s.current.Some?
                          && s.current.value < |s.transports| && s.transports[s.current.value].advice in {NoAdvice, Declined};
            u == if begins then s.(pass := s.current, passEnd := |s.accepted|) else s
    ensures Step(s, EndPass) == if s.writing.None? then s.(pass := None) else s
  {
    hide Reachable, Inv;
  }

  /** Advice stands until the append session answers it; only standing advice is answered. */
  lemma AdviceDecides(s: State, t: nat, accept: bool)
    requires t < |s.transports|
    ensures var u := Step(s, Advise(t));
            u == s.(transports := s.transports[t := s.transports[t].(advice := if s.transports[t].advice.NoAdvice? then Advised else s.transports[t].advice)])
    ensures var u := Step(s, AnswerAdvice(t, accept));
            u == if !s.transports[t].advice.Advised? then s
                 else s.(transports := s.transports[t := s.transports[t].(advice := if accept then Accepted else Declined)])
  {
    assert s.transports[t := s.transports[t]] == s.transports;
  }

  /** Closing refuses every later reservation, and so does cancelling; what is queued stays. */
  lemma ClosingRefuses(s: State, input: Input)
    ensures var u := Step(s, CloseStarts); u.closing && Step(u, Reserve(input)) == u && u.queue == s.queue
    ensures var u := Step(s, CancelContext); u.cancelled && Step(u, Reserve(input)) == u && u.queue == s.queue
  {
    hide HasCapacity;
  }

  /** A reservation becomes the queue's last entry, with the next number, unless the session is closing:
      then it is given back. */
  lemma EnqueueDecides(s: State, k: nat)
    requires Reachable(s) && k < |s.reserved|
    ensures var u := Step(s, Enqueue(k));
            && u.reserved == s.reserved[..k] + s.reserved[k + 1..]
            && (if s.closing
                then u.queue == s.queue && u.accepted == s.accepted && u.capacity.curBytes == s.capacity.curBytes - s.reserved[k].bytes
                else u.queue == s.queue + [Entry(|s.accepted|, s.reserved[k], false, [], false, [])]
                     && u.accepted == s.accepted + [s.reserved[k]] && u.capacity == s.capacity)
  {
    hide Inv, Bytes, InputBytes, Holds, WithinLimits, Release;
    ReachableInv(s);
    CapacityHeld(s);
    var held := Bytes(s.queue) + InputBytes(s.reserved);
    assert held[|s.queue| + k] == s.reserved[k].bytes by { HeldAt(s, k); }
    ReleaseHeld(s.capacity, held, |s.queue| + k);
  }

  lemma HeldAt(s: State, k: nat)
    requires k < |s.reserved|
    ensures (Bytes(s.queue) + InputBytes(s.reserved))[|s.queue| + k] == s.reserved[k].bytes
  {
  }

  /** Marking takes the first of the pass's entries that does not list the transport, if there is one. */
  lemma MarkDecides(s: State, t: nat)
    requires Reachable(s) && s.pass == Some(t) && s.writing.None?
    ensures var u := Step(s, Mark);
            && (u.writing.Some? <==> exists i :: 0 <= i < |s.queue| && s.queue[i].id < s.passEnd && t !in s.queue[i].sentOn)
            && (u.writing.None? ==> u == s)
            && (u.writing.Some? ==> exists i :: 0 <= i < |s.queue| && MarkedAt(s, u, i, t))
  {
    hide Inv;
    ReachableInv(s);
    QueueNumbers(s);
    var i := FirstUnsent(s.queue, t);
    if i < |s.queue| && s.queue[i].id < s.passEnd { assert MarkedAt(s, Step(s, Mark), i, t); }
  }

  ghost predicate MarkedAt(s: State, u: State, i: nat, t: nat)
    requires i < |s.queue|
  {
    var e := s.queue[i];
    && u.writing == Some(Writing(e.id, t)) && t !in e.sentOn && (forall j | 0 <= j < i :: t in s.queue[j].sentOn)
    && u.queue == s.queue[i := e.(sentOn := e.sentOn + [t], started := true)]
  }

  lemma QueueNumbers(s: State)
    requires Inv(s)
    ensures forall i, j | 0 <= i < j < |s.queue| :: s.queue[i].id < s.queue[j].id
    ensures s.pass.Some? ==> s.pass.value < |s.transports|
  {
  }

  // ---- stopping ----

  /** Once cancelled the pump fails what is left, with the pass over; it stops quietly when closing has
      begun and nothing is queued. */
  lemma StopDecides(s: State)
    requires Reachable(s)
    ensures if s.cancelled && s.pass.None? then AllFailed(s, Step(s, PumpStops), SessionClosed) else Step(s, PumpStops) == s
    ensures Step(s, PumpDrains).closeDone <==> s.closeDone || (s.closing && s.queue == [] && s.pass.None?)
    ensures s.closeDone ==> AllFailed(s, Step(s, CloseEnds), SessionClosed)
  {
    hide Inv, AllFailed, Step;
    ReachableInv(s);
    Unused(s);
    FailAllFails(s, SessionClosed);
    StopSteps(s);
    if s.closeDone { SameDown(s); }
  }

  lemma StopSteps(s: State)
    ensures Step(s, PumpStops) == if s.cancelled && s.pass.None? then FailAll(s, SessionClosed) else s
    ensures Step(s, CloseEnds) == DoCloseEnds(s)
    ensures Step(s, PumpDrains) == if s.closing && s.queue == [] && s.pass.None? then s.(closeDone := true) else s
  {
    hide FailAll, DoCloseEnds;
  }

  /** The final sweep of Close leaves what failing everything would. */
  lemma SameDown(s: State)
    requires s.closeDone && AllFailed(s, FailAll(s, SessionClosed), SessionClosed)
    ensures AllFailed(s, DoCloseEnds(s), SessionClosed)
  {
    hide FailEach, ReleaseAll, CloseSome, FailedFor;
  }
}
