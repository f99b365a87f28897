/** Each action of the append session keeps the invariant. */
module AppendSteps {
  import opened Options
  import opened Errors
  import opened Capacity
  import opened AppendModel
  import opened AppendInvariant

  lemma EmptyQueue(s: State)
    requires s.queue == [] && s.refs == map[]
    ensures SentPrefix(s.queue, |s.transports|) && WrittenSent(s.queue, s.current, s.pass, s.writing) && RefsExact(s.queue, s.refs)
    ensures EarlierFailedCleanly(s.cfg.onlyNoSideEffects, s.queue, s.transports, s.current, s.pending, s.late) && WritesCounted(s.queue, s.transports)
  {
  }

  lemma EmptyHistory(cfg: Config, maxBytes: nat, maxItems: nat)
    ensures var s := Init(cfg, maxBytes, maxItems);
            && InOrder(s.accepted, s.resolutions, s.queue) && AcksIncrease(s.accepted, s.resolutions, s.lastAck)
            && RetiredOnce(s.transports, s.current, s.pending) && DoubtTracked(0, s.queue, s.resolutions, s.failures)
  {
  }

  lemma EmptyTables(cfg: Config, maxBytes: nat, maxItems: nat)
    ensures var s := Init(cfg, maxBytes, maxItems);
            && WritesLogged(0, s.queue, Logs(s.transports)) && UnusedClosed(s.transports, s.current, s.refs)
            && CapacityExact(s.capacity, s.queue, s.reserved)
  {
  }

  lemma EmptyLate(cfg: Config, maxBytes: nat, maxItems: nat)
    ensures var s := Init(cfg, maxBytes, maxItems);
            WritingWell(s.writing, 0, s.queue, Logs(s.transports)) && WritingClean(s.writing, s.transports, s.late) && LateWell(s.late, s.transports)
  {
  }

  lemma InitInv(cfg: Config, maxBytes: nat, maxItems: nat)
    ensures Inv(Init(cfg, maxBytes, maxItems))
  {
    hide InOrder, AcksIncrease, RetiredOnce, SentPrefix, WrittenSent, WritesLogged, RefsExact, UnusedClosed,
      WritesCounted, EarlierFailedCleanly, DoubtTracked, CapacityExact, WritingWell, WritingClean, LateWell;
    EmptyQueue(Init(cfg, maxBytes, maxItems));
    EmptyHistory(cfg, maxBytes, maxItems);
    EmptyTables(cfg, maxBytes, maxItems);
    EmptyLate(cfg, maxBytes, maxItems);
  }

  /** Transport tables that differ only in advice, ack counts and closed transports. */
  ghost predicate Alike(ts: seq<Transport>, us: seq<Transport>) {
    |ts| == |us| && forall i | 0 <= i < |ts| ::
      us[i].(advice := ts[i].advice, acks := ts[i].acks, isOpen := ts[i].isOpen) == ts[i] && (us[i].isOpen ==> ts[i].isOpen)
  }

  lemma AlikeKeeps(s: State, ts: seq<Transport>, queue: seq<Entry>)
    requires Alike(s.transports, ts)
    ensures Logs(ts) == Logs(s.transports)
    ensures RetiredOnce(s.transports, s.current, s.pending) ==> RetiredOnce(ts, s.current, s.pending)
    ensures UnusedClosed(s.transports, s.current, s.refs) ==> UnusedClosed(ts, s.current, s.refs)
    ensures WritesCounted(queue, s.transports) ==> WritesCounted(queue, ts)
    ensures EarlierFailedCleanly(s.cfg.onlyNoSideEffects, queue, s.transports, s.current, s.pending, s.late) ==>
              EarlierFailedCleanly(s.cfg.onlyNoSideEffects, queue, ts, s.current, s.pending, s.late)
    ensures WritingClean(s.writing, s.transports, s.late) ==> WritingClean(s.writing, ts, s.late)
    ensures LateWell(s.late, s.transports) ==> LateWell(s.late, ts)
  {
    assert forall i | 0 <= i < |ts| :: ts[i].retirements == s.transports[i].retirements
                                     && ts[i].pendingWrites == s.transports[i].pendingWrites
                                     && ts[i].written == s.transports[i].written;
  }

  lemma AlikeInv(s: State, ts: seq<Transport>)
    requires Inv(s) && Alike(s.transports, ts)
    ensures Inv(s.(transports := ts))
  {
    hide InOrder, AcksIncrease, RetiredOnce, SentPrefix, WrittenSent, WritesLogged, RefsExact, UnusedClosed,
      WritesCounted, EarlierFailedCleanly, DoubtTracked, CapacityExact, WritingWell, WritingClean, LateWell;
    AlikeKeeps(s, ts, s.queue);
  }

  lemma FailEachInOrder(s: State, err: Err)
    requires InOrder(s.accepted, s.resolutions, s.queue)
    ensures InOrder(s.accepted, s.resolutions + FailEach(s.queue, err), [])
  {
  }

  lemma FailEachAcks(s: State, err: Err)
    requires AcksIncrease(s.accepted, s.resolutions, s.lastAck)
    ensures AcksIncrease(s.accepted, s.resolutions + FailEach(s.queue, err), s.lastAck)
  {
    var rs := s.resolutions + FailEach(s.queue, err);
    assert forall i | 0 <= i < |rs| && rs[i].outcome.Acked? :: i < |s.resolutions| && rs[i] == s.resolutions[i];
  }

  lemma FailEachDoubt(s: State, err: Err)
    requires DoubtTracked(|s.accepted|, s.queue, s.resolutions, s.failures)
    ensures DoubtTracked(|s.accepted|, [], s.resolutions + FailEach(s.queue, err), s.failures)
  {
    var rs := s.resolutions + FailEach(s.queue, err);
    forall i | 0 <= i < |rs| && rs[i].outcome.Failed?
      ensures rs[i].outcome.reported == WithPriorUncertainty(rs[i].outcome.cause, InDoubt(s.failures, rs[i].id))
    {
      if i >= |s.resolutions| {
        var e := s.queue[i - |s.resolutions|];
        assert rs[i] == Resolution(e.id, Failed(err, WithPriorUncertainty(err, e.priorUncertainty)));
      }
    }
  }

  lemma FailAllCapacity(s: State)
    requires CapacityExact(s.capacity, s.queue, s.reserved)
    ensures CapacityExact(ReleaseAll(s.capacity, Bytes(s.queue)), [], s.reserved)
    ensures CapacityExact(ReleaseAll(s.capacity, Bytes(s.queue)).(closed := true), [], s.reserved)
  {
    ReleaseAllHeld(s.capacity, Bytes(s.queue), InputBytes(s.reserved));
    assert Bytes([]) + InputBytes(s.reserved) == InputBytes(s.reserved);
  }

  lemma FailAllTransports(s: State)
    requires RetiredOnce(s.transports, s.current, s.pending)
    requires UnusedClosed(s.transports, s.current, s.refs)
    requires WritesLogged(|s.accepted|, s.queue, Logs(s.transports)) && WritingWell(s.writing, |s.accepted|, s.queue, Logs(s.transports))
    ensures var ts := CloseSome(s.transports, Referenced(s));
            && RetiredOnce(ts, s.current, s.pending) && UnusedClosed(ts, s.current, map[])
            && WritesLogged(|s.accepted|, [], Logs(ts)) && WritingWell(s.writing, |s.accepted|, [], Logs(ts))
            && (WritingClean(s.writing, s.transports, s.late) ==> WritingClean(s.writing, ts, s.late))
            && (LateWell(s.late, s.transports) ==> LateWell(s.late, ts))
  {
    AlikeKeeps(s, CloseSome(s.transports, Referenced(s)), s.queue);
  }

  /** Clearing the queue because of an error resolves every entry and closes every transport in use. */
  lemma FailAllInv(s: State, err: Err, extra: nat)
    requires Inv(s) && extra <= 1
    requires extra == 1 ==> s.sinceAck == s.attempt && s.pending == []
    ensures Inv(FailAll(s.(sinceAck := s.sinceAck + extra), err))
  {
    hide InOrder, AcksIncrease, RetiredOnce, SentPrefix, WrittenSent, WritesLogged, RefsExact, UnusedClosed,
      WritesCounted, EarlierFailedCleanly, DoubtTracked, CapacityExact, WritingWell, WritingClean, LateWell, ReleaseAll, FailEach, Bytes;
    FailEachInOrder(s, err);
    FailEachAcks(s, err);
    FailEachDoubt(s, err);
    FailAllCapacity(s);
    FailAllTransports(s);
    EmptyQueue(FailAll(s.(sinceAck := s.sinceAck + extra), err));
  }

  lemma ReserveCapacity(s: State, input: Input)
    requires CapacityExact(s.capacity, s.queue, s.reserved)
    ensures var s' := DoReserve(s, input); CapacityExact(s'.capacity, s'.queue, s'.reserved)
  {
    var s' := DoReserve(s, input);
    if s' != s {
      ReserveHolds(s.capacity, Bytes(s.queue) + InputBytes(s.reserved), input.bytes);
      assert Bytes(s'.queue) + InputBytes(s'.reserved) == Bytes(s.queue) + InputBytes(s.reserved) + [input.bytes];
    }
  }

  lemma ReserveInv(s: State, input: Input)
    requires Inv(s)
    ensures Inv(DoReserve(s, input))
  {
    hide InOrder, AcksIncrease, RetiredOnce, SentPrefix, WrittenSent, WritesLogged, RefsExact, UnusedClosed,
      WritesCounted, EarlierFailedCleanly, DoubtTracked, CapacityExact, WritingWell, WritingClean, LateWell;
    ReserveCapacity(s, input);
  }

  lemma RefuseCapacity(s: State, k: nat)
    requires CapacityExact(s.capacity, s.queue, s.reserved) && k < |s.reserved|
    ensures CapacityExact(Release(s.capacity, s.reserved[k].bytes), s.queue, s.reserved[..k] + s.reserved[k + 1..])
  {
    var held := Bytes(s.queue) + InputBytes(s.reserved);
    var at := |s.queue| + k;
    ReleaseHeld(s.capacity, held, at);
    assert Bytes(s.queue) + InputBytes(s.reserved[..k] + s.reserved[k + 1..]) == held[..at] + held[at + 1..];
  }

  lemma EnqueueInv(s: State, k: nat)
    requires Inv(s)
    ensures Inv(DoEnqueue(s, k))
  {
    hide InOrder, AcksIncrease, RetiredOnce, SentPrefix, WrittenSent, WritesLogged, RefsExact, UnusedClosed,
      WritesCounted, EarlierFailedCleanly, DoubtTracked, CapacityExact, WritingWell, WritingClean, LateWell;
    if k < |s.reserved| {
      if s.closing {
        RefuseCapacity(s, k);
      } else {
        var s' := DoEnqueue(s, k);
        var e := Entry(|s.accepted|, s.reserved[k], false, [], false, []);
        AppendUnsent(s, e);
        AcceptDoubt(s, e);
        AcceptInOrder(s, e);
        AcceptLogged(s, e);
        assert Bytes(s'.queue) == Bytes(s.queue) + [s.reserved[k].bytes];
        MoveReservation(s, s', k);
      }
    }
  }

  /** A fresh entry at the tail disturbs no count and no prefix. */
  lemma AppendUnsent(s: State, e: Entry)
    requires RefsExact(s.queue, s.refs) && WritesCounted(s.queue, s.transports)
    requires SentPrefix(s.queue, |s.transports|) && WrittenSent(s.queue, s.current, s.pass, s.writing)
    requires e.sentOn == [] && e.writtenOn == []
    ensures RefsExact(s.queue + [e], s.refs) && WritesCounted(s.queue + [e], s.transports)
    ensures SentPrefix(s.queue + [e], |s.transports|) && WrittenSent(s.queue + [e], s.current, s.pass, s.writing)
  {
    var q := s.queue + [e];
    assert SentLists(q) == SentLists(s.queue) + [[]];
    assert WrittenLists(q) == WrittenLists(s.queue) + [[]];
    forall t: nat
      ensures Mentions(SentLists(q), t) == Mentions(SentLists(s.queue), t)
      ensures Mentions(WrittenLists(q), t) == Mentions(WrittenLists(s.queue), t)
    {
      MentionsAppendEmpty(SentLists(s.queue), t);
      MentionsAppendEmpty(WrittenLists(s.queue), t);
    }
  }

  lemma AcceptInOrder(s: State, e: Entry)
    requires InOrder(s.accepted, s.resolutions, s.queue) && AcksIncrease(s.accepted, s.resolutions, s.lastAck)
    requires e.id == |s.accepted| && e.writtenOn == []
    ensures InOrder(s.accepted + [e.input], s.resolutions, s.queue + [e])
    ensures AcksIncrease(s.accepted + [e.input], s.resolutions, s.lastAck)
    ensures EarlierFailedCleanly(s.cfg.onlyNoSideEffects, s.queue, s.transports, s.current, s.pending, s.late) ==>
              EarlierFailedCleanly(s.cfg.onlyNoSideEffects, s.queue + [e], s.transports, s.current, s.pending, s.late)
  {
  }

  lemma AcceptLogged(s: State, e: Entry)
    requires WritesLogged(|s.accepted|, s.queue, Logs(s.transports))
    requires e.id == |s.accepted| && e.writtenOn == []
    ensures WritesLogged(|s.accepted| + 1, s.queue + [e], Logs(s.transports))
    ensures WritingWell(s.writing, |s.accepted|, s.queue, Logs(s.transports)) ==>
              WritingWell(s.writing, |s.accepted| + 1, s.queue + [e], Logs(s.transports))
  {
  }

  lemma AcceptDoubt(s: State, e: Entry)
    requires DoubtTracked(|s.accepted|, s.queue, s.resolutions, s.failures)
    requires e.id == |s.accepted| && !e.priorUncertainty
    ensures DoubtTracked(|s.accepted| + 1, s.queue + [e], s.resolutions, s.failures)
  {
  }

  lemma MoveReservation(s: State, s': State, k: nat)
    requires CapacityExact(s.capacity, s.queue, s.reserved) && k < |s.reserved| && s'.capacity == s.capacity
    requires Bytes(s'.queue) == Bytes(s.queue) + [s.reserved[k].bytes]
    requires s'.reserved == s.reserved[..k] + s.reserved[k + 1..]
    ensures CapacityExact(s'.capacity, s'.queue, s'.reserved)
  {
    var b := InputBytes(s.reserved);
    assert InputBytes(s'.reserved) == b[..k] + b[k + 1..];
    HoldsMoved(s.capacity, Bytes(s.queue), b, k);
  }

  /** Moving one reservation to the end of the queue's share changes no total. */
  lemma HoldsMoved(c: Tracker, a: seq<int>, b: seq<int>, k: nat)
    requires Holds(c, a + b) && k < |b|
    ensures Holds(c, (a + [b[k]]) + (b[..k] + b[k + 1..]))
  {
    SumAppend(a, b);
    SumRemove(b, k);
    SumAppend(a + [b[k]], b[..k] + b[k + 1..]);
    SumAppend(a, [b[k]]);
    assert Sum([b[k]]) == b[k];
    var held := (a + [b[k]]) + (b[..k] + b[k + 1..]);
    forall i | 0 <= i < |held| ensures held[i] > 0
    {
      assert held[i] == if i < |a| then (a + b)[i] else if i == |a| then (a + b)[|a| + k]
                        else if i <= |a| + k then (a + b)[i - 1] else (a + b)[i];
    }
  }

  lemma OpenFresh(s: State, ts: seq<Transport>)
    requires Inv(s) && s.current.None? && s.pending == [] && s.pass.None? && ts == s.transports + [Transport(true, 0, NoAdvice, [], 0, [])]
    ensures SentPrefix(s.queue, |ts|) && WrittenSent(s.queue, Some(|s.transports|), s.pass, s.writing)
    ensures s.writing.None?
    ensures RetiredOnce(ts, Some(|s.transports|), []) && UnusedClosed(ts, Some(|s.transports|), s.refs)
  {
  }

  lemma OpenWrites(s: State, ts: seq<Transport>)
    requires SentPrefix(s.queue, |s.transports|) && WrittenSent(s.queue, s.current, s.pass, s.writing)
    requires WritesCounted(s.queue, s.transports) && WritesLogged(|s.accepted|, s.queue, Logs(s.transports))
    requires s.writing.None? && LateWell(s.late, s.transports)
    requires ts == s.transports + [Transport(true, 0, NoAdvice, [], 0, [])]
    ensures WritesCounted(s.queue, ts) && WritesLogged(|s.accepted|, s.queue, Logs(ts))
    ensures s.current.None? && EarlierFailedCleanly(s.cfg.onlyNoSideEffects, s.queue, s.transports, s.current, s.pending, s.late) ==>
              EarlierFailedCleanly(s.cfg.onlyNoSideEffects, s.queue, ts, Some(|s.transports|), s.pending, s.late)
    ensures WritingWell(s.writing, |s.accepted|, s.queue, Logs(ts)) && WritingClean(s.writing, ts, s.late) && LateWell(s.late, ts)
  {
    var t := |s.transports|;
    assert forall i | 0 <= i < |s.queue| :: t !in s.queue[i].writtenOn;
    MentionsZero(WrittenLists(s.queue), t);
    assert Logs(ts) == Logs(s.transports) + [[]];
  }

  lemma OpenInv(s: State, failure: Option<Err>)
    requires Inv(s)
    ensures Inv(DoOpen(s, failure))
  {
    if CanOpen(s) {
      if failure.None? {
        hide InOrder, AcksIncrease, RetiredOnce, SentPrefix, WrittenSent, WritesLogged, RefsExact, UnusedClosed,
          WritesCounted, EarlierFailedCleanly, DoubtTracked, CapacityExact, WritingWell, WritingClean, LateWell;
        OpenFresh(s, DoOpen(s, failure).transports);
        OpenWrites(s, DoOpen(s, failure).transports);
      } else if IsRetryableErr(failure.value) {
        StartErrorInv(s, failure.value);
      } else {
        FailAllInv(s, failure.value, 0);
      }
    }
  }

  lemma StartErrorInv(s: State, err: Err)
    requires Inv(s) && s.pending == [] && !s.closed
    ensures Inv(StartError(s, err))
  {
    hide InOrder, AcksIncrease, RetiredOnce, SentPrefix, WrittenSent, WritesLogged, RefsExact, UnusedClosed,
      WritesCounted, EarlierFailedCleanly, DoubtTracked, CapacityExact, WritingWell, WritingClean, LateWell;
    if s.attempt >= MaxAttempts(s) - 1 { FailAllInv(s, Exhausted(err), 1); }
  }

  lemma CloseSomeInv(s: State, doomed: set<nat>)
    requires Inv(s)
    ensures Inv(s.(transports := CloseSome(s.transports, doomed)))
  {
    hide Inv;
    AlikeInv(s, CloseSome(s.transports, doomed));
  }

  lemma CloseIfUnusedInv(s: State, t: nat)
    requires Inv(s)
    ensures Inv(CloseIfUnused(s, t))
  {
    CloseSomeInv(s, {t});
  }

  lemma AdviceInv(s: State, t: nat, from: Advice, to: Advice)
    requires Inv(s)
    ensures Inv(SetAdvice(s, t, from, to))
  {
    hide Inv;
    AlikeInv(s, SetAdvice(s, t, from, to).transports);
  }

  /** Retiring changes the current transport only, and of it neither log nor counters. */
  lemma RetireShape(s: State, cause: Cause, claims: seq<Claim>)
    requires RetiredOnce(s.transports, s.current, s.pending) && s.current.Some?
    ensures var s' := RetireCurrent(s, cause, claims);
            var t := s.current.value;
            && s'.current.None? && s'.pending == claims && s'.refs == s.refs && |s'.transports| == |s.transports|
            && s'.transports[t].retirements == [cause] && s'.transports[t].pendingWrites == s.transports[t].pendingWrites
            && s'.transports[t].written == s.transports[t].written && (t !in s.refs ==> !s'.transports[t].isOpen)
            && forall u | 0 <= u < |s.transports| && u != t :: s'.transports[u] == s.transports[u]
  {
    assert s.pending + claims == claims;
  }

  lemma RetireTransports(s: State, cause: Cause, claims: seq<Claim>)
    requires RetiredOnce(s.transports, s.current, s.pending) && s.current.Some?
    requires claims == [] || (!cause.MovedOnAdvice? && TransportErr(cause.err) && claims == [Claim(s.current.value, cause.err)])
    ensures var s' := RetireCurrent(s, cause, claims);
            RetiredOnce(s'.transports, s'.current, s'.pending) && s'.pending == claims
    ensures var s' := RetireCurrent(s, cause, claims);
            UnusedClosed(s.transports, s.current, s.refs) ==> UnusedClosed(s'.transports, s'.current, s'.refs)
    ensures var s' := RetireCurrent(s, cause, claims);
            WritesCounted(s.queue, s.transports) ==> WritesCounted(s.queue, s'.transports)
    ensures var s' := RetireCurrent(s, cause, claims);
            && Logs(s'.transports) == Logs(s.transports)
            && forall u | 0 <= u < |s.transports| && u != s.current.value :: s'.transports[u] == s.transports[u]
    ensures var s' := RetireCurrent(s, cause, claims);
            LateWell(s.late, s.transports) ==> LateWell(s.late, s'.transports)
    ensures var s' := RetireCurrent(s, cause, claims);
            (s.writing.Some? ==> s.writing.value.transport == s.current.value) && WritingClean(s.writing, s.transports, s.late) ==>
              WritingClean(s.writing, s'.transports, s.late)
  {
    hide RetireCurrent, TransportErr, Mentions, WrittenLists, FailedCleanly;
    RetireShape(s, cause, claims);
  }

  lemma RetirePolicy(policy: bool, queue: seq<Entry>, ts: seq<Transport>, us: seq<Transport>, t: nat, claims: seq<Claim>, late: set<Writing>)
    requires EarlierFailedCleanly(policy, queue, ts, Some(t), [], late)
    requires |us| == |ts| && forall u | 0 <= u < |ts| && u != t :: us[u] == ts[u]
    requires (|claims| == 1 && claims[0].transport == t) || forall i | 0 <= i < |queue| :: t !in queue[i].writtenOn
    ensures EarlierFailedCleanly(policy, queue, us, None, claims, late)
  {
    hide FailedCleanly;
  }

  /** Without a current transport the marks only have to be written. */
  lemma NoCurrent(s: State)
    requires WrittenSent(s.queue, s.current, s.pass, s.writing)
    ensures WrittenSent(s.queue, None, s.pass, s.writing)
  {
  }

  /** Retiring the current transport as failed: the claim is the one pending failure. */
  lemma ClaimInv(s: State, cause: Cause)
    requires Inv(s) && s.current.Some? && !s.closed
    requires !cause.MovedOnAdvice? && TransportErr(cause.err)
    ensures Inv(ClaimCurrent(s, cause))
  {
    assert s.current.value < |s.transports| && s.pending == [];
    RetiredInv(s, cause, [Claim(s.current.value, cause.err)]);
  }

  lemma RetiredInv(s: State, cause: Cause, claims: seq<Claim>)
    requires Inv(s) && s.current.Some? && s.current.value < |s.transports| && !s.closed && s.pending == []
    requires || (claims == [] && forall i | 0 <= i < |s.queue| :: s.current.value !in s.queue[i].writtenOn)
             || (!cause.MovedOnAdvice? && TransportErr(cause.err) && claims == [Claim(s.current.value, cause.err)])
    ensures Inv(RetireCurrent(s, cause, claims))
  {
    hide InOrder, AcksIncrease, RetiredOnce, SentPrefix, WrittenSent, WritesLogged, RefsExact, UnusedClosed,
      WritesCounted, EarlierFailedCleanly, DoubtTracked, CapacityExact, WritingWell, WritingClean, LateWell;
    hide RetireCurrent, TransportErr;
    NoCurrent(s);
    RetireFrame(s, cause, claims);
    RetireTransports(s, cause, claims);
    RetirePolicy(s.cfg.onlyNoSideEffects, s.queue, s.transports, RetireCurrent(s, cause, claims).transports, s.current.value, claims, s.late);
  }

  lemma SessionErrorInv(s: State, t: nat, err: Err)
    requires Inv(s) && TransportErr(err)
    ensures Inv(SessionError(s, t, err))
  {
    if !s.closed && IsTransport(s, t) {
      if s.current == Some(t) { ClaimInv(s, FailedWith(err)); } else { CloseIfUnusedInv(s, t); }
    }
  }

  /** A transport given up on advice carries no unresolved entry. */
  lemma MoveOnAdviceInv(s: State)
    requires Inv(s) && s.current.Some? && !s.closed && !HasUnacked(s.queue, s.current.value)
    ensures Inv(RetireCurrent(s, MovedOnAdvice, []))
  {
    assert s.current.value < |s.transports| && s.pending == [];
    assert forall i | 0 <= i < |s.queue| :: s.current.value !in s.queue[i].writtenOn;
    RetiredInv(s, MovedOnAdvice, []);
  }

  lemma EndCleanlyInv(s: State, t: nat)
    requires Inv(s)
    ensures Inv(DoEndCleanly(s, t))
  {
    if IsTransport(s, t) && s.transports[t].advice.Accepted? && !s.closed {
      if HasUnacked(s.queue, t) {
        SessionErrorInv(s, t, Plain("append session ended before acknowledging all appends"));
      } else if s.current == Some(t) {
        MoveOnAdviceInv(s);
      } else {
        CloseIfUnusedInv(s, t);
      }
    }
  }

  lemma TimeOutInv(s: State)
    requires Inv(s)
    ensures Inv(DoTimeOut(s))
  {
    if s.current.Some? && IsTransport(s, s.current.value) && !s.closed { ClaimInv(s, TimedOut(TIMEOUT_ERROR)); }
  }

  // ---- submitting ----

  lemma BeginPassInv(s: State)
    requires Inv(s)
    ensures Inv(DoBeginPass(s))
  {
    hide InOrder, AcksIncrease, RetiredOnce, SentPrefix, WritesLogged, RefsExact, UnusedClosed,
      WritesCounted, EarlierFailedCleanly, DoubtTracked, CapacityExact, LateWell;
  }

  lemma EndPassInv(s: State)
    requires Inv(s)
    ensures Inv(DoEndPass(s))
  {
    hide InOrder, AcksIncrease, RetiredOnce, SentPrefix, WritesLogged, RefsExact, UnusedClosed,
      WritesCounted, EarlierFailedCleanly, DoubtTracked, CapacityExact, LateWell;
  }

  /** `r` is `q` with `t` added to the sent list of entry `i`, the first one without it. */
  ghost predicate Marked(q: seq<Entry>, r: seq<Entry>, i: nat, t: nat) {
    && |r| == |q| && i < |q| && r == q[i := r[i]]
    && r[i].sentOn == q[i].sentOn + [t] && t !in q[i].sentOn
    && r[i].writtenOn == q[i].writtenOn && r[i].id == q[i].id
    && (forall j | 0 <= j < i :: t in q[j].sentOn)
  }

  lemma MarkedMarks(s: State, t: nat)
    requires FirstUnsent(s.queue, t) < |s.queue|
    ensures Marked(s.queue, MarkSent(s, t).queue, FirstUnsent(s.queue, t), t)
  {
  }

  lemma MarkPrefix(q: seq<Entry>, r: seq<Entry>, i: nat, t: nat, n: nat)
    requires SentPrefix(q, n) && t < n && Marked(q, r, i, t)
    ensures SentPrefix(r, n)
  {
    assert forall u: nat :: u in r[i].sentOn <==> u in q[i].sentOn || u == t;
    assert NoRepeats(q[i].sentOn);
    assert NoRepeats(r[i].sentOn);
    forall j, k, u: nat | 0 <= j < k < |r| && u in r[k].sentOn ensures u in r[j].sentOn
    {
      if k == i && u == t { } else { assert u in q[k].sentOn; assert u in q[j].sentOn; }
    }
  }

  lemma MarkWritten(q: seq<Entry>, r: seq<Entry>, i: nat, t: nat, current: Option<nat>)
    requires WrittenSent(q, current, Some(t), None) && Marked(q, r, i, t)
    ensures WrittenSent(r, current, Some(t), Some(Writing(q[i].id, t)))
  {
    assert forall u: nat :: u in r[i].sentOn <==> u in q[i].sentOn || u == t;
    forall j, k, u: nat | 0 <= j < k < |r| && u in r[k].sentOn ensures u in r[j].writtenOn
    {
      if k == i && u == t {
        assert t in q[j].sentOn;
        assert t in q[j].writtenOn;
      } else {
        assert u in q[k].sentOn;
        assert u in q[j].writtenOn;
      }
    }
  }

  lemma MarkCounts(s: State, t: nat)
    requires RefsExact(s.queue, s.refs) && WritesCounted(s.queue, s.transports) && FirstUnsent(s.queue, t) < |s.queue|
    ensures var s' := MarkSent(s, t);
            RefsExact(s'.queue, s'.refs) && WritesCounted(s'.queue, s'.transports)
  {
    var i := FirstUnsent(s.queue, t);
    var s' := MarkSent(s, t);
    var e := s'.queue[i];
    assert SentLists(s'.queue) == SentLists(s.queue)[i := e.sentOn];
    assert WrittenLists(s'.queue) == WrittenLists(s.queue);
    forall u: nat ensures (if u in s'.refs then s'.refs[u] else 0) == Mentions(SentLists(s'.queue), u)
    {
      MentionsUpdate(SentLists(s.queue), i, e.sentOn, u);
    }
  }

  /** Only lists of sent transports and start times change. */
  lemma MarkRest(s: State, t: nat)
    requires FirstUnsent(s.queue, t) < |s.queue|
    ensures var s' := MarkSent(s, t);
            && (InOrder(s.accepted, s.resolutions, s.queue) ==> InOrder(s'.accepted, s'.resolutions, s'.queue))
            && (UnusedClosed(s.transports, s.current, s.refs) ==> UnusedClosed(s'.transports, s'.current, s'.refs))
            && (WritesLogged(|s.accepted|, s.queue, Logs(s.transports)) ==> WritesLogged(|s'.accepted|, s'.queue, Logs(s'.transports)))
            && (EarlierFailedCleanly(s.cfg.onlyNoSideEffects, s.queue, s.transports, s.current, s.pending, s.late) ==>
                  EarlierFailedCleanly(s.cfg.onlyNoSideEffects, s'.queue, s'.transports, s'.current, s'.pending, s'.late))
  {
  }

  lemma MarkDoubt(s: State, t: nat)
    requires FirstUnsent(s.queue, t) < |s.queue|
    ensures var s' := MarkSent(s, t);
            && (DoubtTracked(|s.accepted|, s.queue, s.resolutions, s.failures) ==> DoubtTracked(|s'.accepted|, s'.queue, s'.resolutions, s'.failures))
            && (CapacityExact(s.capacity, s.queue, s.reserved) ==> CapacityExact(s'.capacity, s'.queue, s'.reserved))
  {
    hide IsNoSideEffectsError, WithPriorUncertainty, Holds, InDoubt;
    assert Bytes(MarkSent(s, t).queue) == Bytes(s.queue);
  }

  /** The entry about to be written was not written there, and elsewhere only cleanly or late. */
  lemma MarkWriting(s: State, t: nat)
    requires FirstUnsent(s.queue, t) < |s.queue| && t < |s.transports| && s.pass == Some(t) && s.writing.None?
    requires PassWell(s.pass, s.writing, s.current, s.pending, |s.transports|) && RetiredOnce(s.transports, s.current, s.pending)
    requires InOrder(s.accepted, s.resolutions, s.queue) && WrittenSent(s.queue, s.current, s.pass, s.writing)
    requires WritesLogged(|s.accepted|, s.queue, Logs(s.transports))
    ensures var s' := MarkSent(s, t);
            && WritingWell(s'.writing, |s'.accepted|, s'.queue, Logs(s'.transports))
            && (EarlierFailedCleanly(true, s.queue, s.transports, s.current, s.pending, s.late) ==> WritingClean(s'.writing, s'.transports, s'.late))
  {
    hide FailedCleanly;
    var i := FirstUnsent(s.queue, t);
    var logs := Logs(s.transports);
    assert t !in s.queue[i].writtenOn;
    assert t in s.queue[i].writtenOn <==> s.queue[i].id in logs[t];
    if EarlierFailedCleanly(true, s.queue, s.transports, s.current, s.pending, s.late) {
      forall u: nat | u < |s.transports| && u != t && s.queue[i].id in s.transports[u].written
        ensures FailedCleanly(s.transports[u]) || Writing(s.queue[i].id, u) in s.late
      {
        assert logs[u] == s.transports[u].written;
        assert u in s.queue[i].writtenOn;
      }
    }
  }

  lemma MarkInv(s: State)
    requires Inv(s)
    ensures Inv(DoMark(s))
  {
    hide InOrder, AcksIncrease, RetiredOnce, SentPrefix, WrittenSent, WritesLogged, RefsExact, UnusedClosed,
      WritesCounted, EarlierFailedCleanly, DoubtTracked, CapacityExact, WritingWell, WritingClean, LateWell, MarkSent;
    if CanMark(s) {
      var t := s.pass.value;
      var i := FirstUnsent(s.queue, t);
      MarkFrame(s, t);
      MarkedMarks(s, t);
      MarkPrefix(s.queue, MarkSent(s, t).queue, i, t, |s.transports|);
      MarkWritten(s.queue, MarkSent(s, t).queue, i, t, s.current);
      MarkCounts(s, t);
      MarkRest(s, t);
      MarkDoubt(s, t);
      MarkWriting(s, t);
    }
  }

  /** What marking leaves alone. */
  lemma MarkFrame(s: State, t: nat)
    requires FirstUnsent(s.queue, t) < |s.queue|
    ensures var s' := MarkSent(s, t);
            && s' == s.(queue := s'.queue, refs := s'.refs, writing := Some(Writing(s.queue[FirstUnsent(s.queue, t)].id, t)))
            && s'.queue != []
  {
  }

  // ---- the write ----

  /** The place of the entry being written, if it is still queued. */
  lemma WrittenToShape(s: State, w: Writing)
    requires InOrder(s.accepted, s.resolutions, s.queue)
    ensures var q := WrittenTo(s.queue, w);
            && (forall i | 0 <= i < |q| :: q[i] == if s.queue[i].id == w.id then s.queue[i].(writtenOn := s.queue[i].writtenOn + [w.transport]) else s.queue[i])
            && (forall i, j | 0 <= i < j < |q| :: s.queue[i].id != s.queue[j].id)
  {
  }

  lemma LogSent(s: State)
    requires s.writing.Some? && InOrder(s.accepted, s.resolutions, s.queue)
    requires PassWell(s.pass, s.writing, s.current, s.pending, |s.transports|)
    requires SentPrefix(s.queue, |s.transports|) && WrittenSent(s.queue, s.current, s.pass, s.writing)
    requires WritingWell(s.writing, |s.accepted|, s.queue, Logs(s.transports))
    ensures var q := WrittenTo(s.queue, s.writing.value);
            SentPrefix(q, |s.transports|) && WrittenSent(q, s.current, s.pass, None)
  {
    var w := s.writing.value;
    var q := WrittenTo(s.queue, w);
    WrittenToShape(s, w);
    assert forall i, u: nat | 0 <= i < |q| :: u in q[i].writtenOn <==> u in s.queue[i].writtenOn || (s.queue[i].id == w.id && u == w.transport);
    assert forall i | 0 <= i < |q| :: q[i].sentOn == s.queue[i].sentOn && q[i].id == s.queue[i].id;
  }

  lemma LogRefs(s: State, w: Writing)
    requires InOrder(s.accepted, s.resolutions, s.queue) && RefsExact(s.queue, s.refs)
    ensures RefsExact(WrittenTo(s.queue, w), s.refs)
  {
    assert SentLists(WrittenTo(s.queue, w)) == SentLists(s.queue);
  }

  lemma LogCounts(s: State)
    requires s.writing.Some? && IsTransport(s, s.writing.value.transport) && InOrder(s.accepted, s.resolutions, s.queue)
    requires WritesCounted(s.queue, s.transports)
    ensures var s' := LogWrite(s); WritesCounted(s'.queue, s'.transports)
  {
    hide InOrder, FailedCleanly;
    var w := s.writing.value;
    var q := WrittenTo(s.queue, w);
    WrittenToShape(s, w);
    if i :| 0 <= i < |q| && s.queue[i].id == w.id {
      var lists := WrittenLists(s.queue);
      assert WrittenLists(q) == lists[i := q[i].writtenOn];
      forall u | 0 <= u < |s.transports| ensures Mentions(WrittenLists(q), u) <= LogWrite(s).transports[u].pendingWrites {
        MentionsUpdate(lists, i, q[i].writtenOn, u);
      }
    } else {
      assert q == s.queue;
    }
  }

  lemma LogLogs(s: State)
    requires s.writing.Some? && IsTransport(s, s.writing.value.transport) && InOrder(s.accepted, s.resolutions, s.queue)
    requires WritesLogged(|s.accepted|, s.queue, Logs(s.transports)) && WritingWell(s.writing, |s.accepted|, s.queue, Logs(s.transports))
    ensures var s' := LogWrite(s); WritesLogged(|s'.accepted|, s'.queue, Logs(s'.transports))
  {
    var w := s.writing.value;
    var s' := LogWrite(s);
    var logs, logs' := Logs(s.transports), Logs(s'.transports);
    WrittenToShape(s, w);
    assert logs' == logs[w.transport := logs[w.transport] + [w.id]];
    forall u, id: nat | 0 <= u < |logs'| && id in logs'[u] ensures id < |s.accepted| {
      assert id in logs[u] || id == w.id;
    }
    forall j, u | 0 <= j < |s.queue| && 0 <= u < |logs'| ensures u in s'.queue[j].writtenOn <==> s'.queue[j].id in logs'[u] {
      assert u in s.queue[j].writtenOn <==> s.queue[j].id in logs[u];
    }
  }

  /** Only the log and the counter of the transport change. */
  lemma LogTransports(s: State)
    requires s.writing.Some? && IsTransport(s, s.writing.value.transport)
    ensures var s' := LogWrite(s);
            && |s'.transports| == |s.transports|
            && (forall u | 0 <= u < |s.transports| ::
                  && s'.transports[u].retirements == s.transports[u].retirements && s'.transports[u].isOpen == s.transports[u].isOpen
                  && s'.transports[u].written == (if u == s.writing.value.transport then s.transports[u].written + [s.writing.value.id] else s.transports[u].written))
            && (RetiredOnce(s.transports, s.current, s.pending) ==> RetiredOnce(s'.transports, s'.current, s'.pending))
            && (UnusedClosed(s.transports, s.current, s.refs) ==> UnusedClosed(s'.transports, s'.current, s'.refs))
  {
    hide RetiredOnce;
    if RetiredOnce(s.transports, s.current, s.pending) { RetiredOnceFrame(s.transports, LogWrite(s).transports, s.current, s.pending); }
  }

  lemma LogLate(s: State)
    requires s.writing.Some? && IsTransport(s, s.writing.value.transport)
    requires RetiredOnce(s.transports, s.current, s.pending) && LateWell(s.late, s.transports)
    ensures var s' := LogWrite(s);
            && LateWell(s'.late, s'.transports)
            && (forall u | 0 <= u < |s.transports| :: FailedCleanly(s'.transports[u]) == FailedCleanly(s.transports[u]))
  {
    hide WrittenTo, TransportErr, IsNoSideEffectsError;
    LogTransports(s);
  }

  lemma LogPolicy(s: State)
    requires s.writing.Some? && IsTransport(s, s.writing.value.transport) && InOrder(s.accepted, s.resolutions, s.queue)
    requires RetiredOnce(s.transports, s.current, s.pending) && LateWell(s.late, s.transports)
    requires EarlierFailedCleanly(s.cfg.onlyNoSideEffects, s.queue, s.transports, s.current, s.pending, s.late)
    ensures var s' := LogWrite(s);
            EarlierFailedCleanly(s.cfg.onlyNoSideEffects, s'.queue, s'.transports, s'.current, s'.pending, s'.late)
  {
    hide RetiredOnce, LateWell, FailedCleanly, WrittenTo, InOrder;
    var w := s.writing.value;
    var s' := LogWrite(s);
    WrittenToShape(s, w);
    LogLate(s);
    assert forall i, u: nat | 0 <= i < |s.queue| && u in s'.queue[i].writtenOn ::
             u in s.queue[i].writtenOn || (s.queue[i].id == w.id && u == w.transport);
  }

  lemma LogRest(s: State)
    requires s.writing.Some? && IsTransport(s, s.writing.value.transport) && InOrder(s.accepted, s.resolutions, s.queue)
    ensures var s' := LogWrite(s);
            && InOrder(s'.accepted, s'.resolutions, s'.queue)
            && (DoubtTracked(|s.accepted|, s.queue, s.resolutions, s.failures) ==> DoubtTracked(|s'.accepted|, s'.queue, s'.resolutions, s'.failures))
            && (CapacityExact(s.capacity, s.queue, s.reserved) ==> CapacityExact(s'.capacity, s'.queue, s'.reserved))
  {
    hide IsNoSideEffectsError, WithPriorUncertainty, Holds, InDoubt, FailedCleanly;
    WrittenToShape(s, s.writing.value);
    assert Bytes(LogWrite(s).queue) == Bytes(s.queue);
  }

  lemma NoWriting(s: State, accepted: nat, logs: seq<seq<nat>>)
    requires s.writing.None?
    ensures WritingWell(s.writing, accepted, s.queue, logs) && WritingClean(s.writing, s.transports, s.late)
  {
  }

  /** What writing leaves alone. */
  lemma LogFrame(s: State)
    requires s.writing.Some? && IsTransport(s, s.writing.value.transport)
    ensures var s' := LogWrite(s);
            && s' == s.(writing := None, queue := s'.queue, transports := s'.transports, late := s'.late)
            && |s'.transports| == |s.transports| && |s'.queue| == |s.queue| && s'.queue == WrittenTo(s.queue, s.writing.value)
  {
  }

  lemma LogInv(s: State)
    requires Inv(s) && s.writing.Some? && IsTransport(s, s.writing.value.transport)
    ensures Inv(LogWrite(s))
  {
    hide InOrder, AcksIncrease, RetiredOnce, SentPrefix, WrittenSent, WritesLogged, RefsExact, UnusedClosed,
      WritesCounted, EarlierFailedCleanly, DoubtTracked, CapacityExact, WritingWell, WritingClean, LateWell, LogWrite, WrittenTo;
    LogFrame(s);
    LogSent(s);
    LogRefs(s, s.writing.value);
    LogCounts(s);
    LogLogs(s);
    LogTransports(s);
    LogLate(s);
    LogPolicy(s);
    LogRest(s);
    NoWriting(LogWrite(s), |s.accepted|, Logs(LogWrite(s).transports));
  }

  /** The invariant while the entry marked last stays unwritten. */
  ghost predicate MidMark(s: State) {
    && InOrder(s.accepted, s.resolutions, s.queue)
    && AcksIncrease(s.accepted, s.resolutions, s.lastAck)
    && RetiredOnce(s.transports, s.current, s.pending)
    && SentPrefix(s.queue, |s.transports|)
    && WrittenSent(s.queue, None, None, None)
    && s.pass.None? && s.writing.None? && LateWell(s.late, s.transports)
    && WritesLogged(|s.accepted|, s.queue, Logs(s.transports))
    && RefsExact(s.queue, s.refs)
    && UnusedClosed(s.transports, s.current, s.refs)
    && WritesCounted(s.queue, s.transports)
    && EarlierFailedCleanly(s.cfg.onlyNoSideEffects, s.queue, s.transports, s.current, s.pending, s.late)
    && DoubtTracked(|s.accepted|, s.queue, s.resolutions, s.failures)
    && CapacityExact(s.capacity, s.queue, s.reserved)
    && BudgetKept(MaxAttempts(s), s.attempt, s.sinceAck, s.closed, s.pending)
    && FlagsAgree(s.queue, s.closing, s.closed, s.cancelled, s.closeDone)
  }

  lemma StopMid(s: State)
    requires Inv(s)
    ensures MidMark(StopPass(s))
    ensures s.writing.None? || s.current != Some(s.writing.value.transport) ==> Inv(StopPass(s))
  {
    hide InOrder, AcksIncrease, RetiredOnce, SentPrefix, WritesLogged, RefsExact, UnusedClosed,
      WritesCounted, EarlierFailedCleanly, DoubtTracked, CapacityExact, LateWell;
  }

  lemma RetireMid(s: State, t: nat, err: Err)
    requires MidMark(s) && s.current == Some(t) && t < |s.transports| && s.pending == [] && !s.closed && TransportErr(err)
    ensures Inv(SessionError(s, t, err))
  {
    hide InOrder, AcksIncrease, RetiredOnce, SentPrefix, WrittenSent, WritesLogged, RefsExact, UnusedClosed,
      WritesCounted, EarlierFailedCleanly, DoubtTracked, CapacityExact, RetireCurrent, TransportErr, WritingWell, WritingClean, LateWell;
    RetireTransports(s, FailedWith(err), [Claim(t, err)]);
    RetireFrame(s, FailedWith(err), [Claim(t, err)]);
    NoWriting(SessionError(s, t, err), |s.accepted|, Logs(s.transports));
    RetirePolicy(s.cfg.onlyNoSideEffects, s.queue, s.transports, RetireCurrent(s, FailedWith(err), [Claim(t, err)]).transports, t, [Claim(t, err)], s.late);
  }

  /** A failed write ends the pass and retires the transport, if it is still in use, in the same step. */
  lemma WriteFailsInv(s: State, t: nat, err: Err)
    requires Inv(s) && TransportErr(err) && (s.writing.Some? ==> s.writing.value.transport == t) && IsTransport(s, t)
    ensures Inv(SessionError(StopPass(s), t, err))
  {
    hide Inv, MidMark, SessionError, TransportErr;
    StopMid(s);
    if s.current == Some(t) && s.writing.Some? {
      if s.closed {
        ClosedStops(s);
        SessionErrorInv(StopPass(s), t, err);
      } else {
        CurrentFacts(s);
        RetireMid(StopPass(s), t, err);
      }
    } else {
      SessionErrorInv(StopPass(s), t, err);
    }
  }

  lemma ClosedStops(s: State)
    requires Inv(s) && s.closed
    ensures Inv(StopPass(s))
  {
    hide InOrder, AcksIncrease, RetiredOnce, SentPrefix, WritesLogged, RefsExact, UnusedClosed,
      WritesCounted, EarlierFailedCleanly, DoubtTracked, CapacityExact, LateWell;
  }

  lemma CurrentFacts(s: State)
    requires Inv(s) && s.current.Some?
    ensures s.current.value < |s.transports| && s.pending == []
  {
  }

  /** What retiring leaves alone. */
  lemma RetireFrame(s: State, cause: Cause, claims: seq<Claim>)
    requires s.current.Some? && IsTransport(s, s.current.value)
    ensures var s' := RetireCurrent(s, cause, claims);
            && s' == s.(current := None, pending := s.pending + claims, transports := s'.transports)
            && |s'.transports| == |s.transports|
  {
  }

  lemma FinishWriteInv(s: State, w: Write)
    requires Inv(s)
    ensures Inv(DoFinishWrite(s, w))
  {
    hide Inv, LogWrite, TransportErr, SessionError, StopPass;
    if s.writing.Some? && IsTransport(s, s.writing.value.transport) {
      var t := s.writing.value.transport;
      match w
      case Written => LogInv(s);
      case FailedBefore(err) => if TransportErr(err) { WriteFailsInv(s, t, err); }
      case FailedAfter(err) =>
        if TransportErr(err) {
          LogInv(s);
          LogFrame(s);
          WriteFailsInv(LogWrite(s), t, err);
        }
    }
  }

  // ---- acknowledgements ----

  lemma MentionsPop(q: seq<Entry>, t: nat)
    requires q != []
    ensures Mentions(SentLists(q), t) == (if t in q[0].sentOn then 1 else 0) + Mentions(SentLists(q[1..]), t)
    ensures Mentions(WrittenLists(q), t) == (if t in q[0].writtenOn then 1 else 0) + Mentions(WrittenLists(q[1..]), t)
  {
    assert SentLists(q)[1..] == SentLists(q[1..]);
    assert WrittenLists(q)[1..] == WrittenLists(q[1..]);
  }

  lemma PopRefs(s: State)
    requires RefsExact(s.queue, s.refs) && s.queue != []
    ensures RefsExact(s.queue[1..], ReleaseRefs(s.refs, s.queue[0].sentOn))
  {
    var refs := ReleaseRefs(s.refs, s.queue[0].sentOn);
    forall t: nat ensures (if t in refs then refs[t] else 0) == Mentions(SentLists(s.queue[1..]), t)
    {
      MentionsPop(s.queue, t);
    }
  }

  /** An accepted ack takes one pending write; a head marked but never written on that transport
      is the transport's last entry, so nothing else is owed there. */
  lemma PopWrites(s: State, t: nat, ack: Ack)
    requires WritesCounted(s.queue, s.transports) && WrittenSent(s.queue, s.current, s.pass, s.writing)
    requires s.queue != [] && t < |s.transports| && t in s.queue[0].sentOn
    ensures WritesCounted(s.queue[1..], AcceptAck(s, t, ack).transports)
  {
    var s' := AcceptAck(s, t, ack);
    forall u | 0 <= u < |s'.transports| ensures Mentions(WrittenLists(s.queue[1..]), u) <= s'.transports[u].pendingWrites
    {
      MentionsPop(s.queue, u);
      if u == t && t !in s.queue[0].writtenOn {
        MentionsZero(WrittenLists(s.queue[1..]), t);
        assert forall i | 0 <= i < |s.queue[1..]| :: s.queue[1..][i] == s.queue[i + 1];
      }
    }
  }

  /** `RetiredOnce` looks at nothing but the retirement lists. */
  lemma RetiredOnceFrame(ts: seq<Transport>, us: seq<Transport>, current: Option<nat>, pending: seq<Claim>)
    requires RetiredOnce(ts, current, pending)
    requires |us| == |ts| && forall u | 0 <= u < |ts| :: us[u].retirements == ts[u].retirements
    ensures RetiredOnce(us, current, pending)
  {
    hide TransportErr;
  }

  lemma PopUnused(s: State, us: seq<Transport>, sent: seq<nat>)
    requires UnusedClosed(s.transports, s.current, s.refs)
    requires |us| == |s.transports|
    requires forall u | 0 <= u < |us| && (!s.transports[u].isOpen || u in LastReleased(s.refs, s.current, sent)) :: !us[u].isOpen
    ensures UnusedClosed(us, s.current, ReleaseRefs(s.refs, sent))
  {
  }

  /** Accepting an ack closes transports and counts one write; logs and retirements stay. */
  lemma PopShape(s: State, t: nat, ack: Ack)
    requires s.queue != [] && t < |s.transports|
    ensures var s' := AcceptAck(s, t, ack);
            && |s'.transports| == |s.transports| && s'.current == s.current && s'.pending == s.pending
            && s'.refs == ReleaseRefs(s.refs, s.queue[0].sentOn)
            && (forall u | 0 <= u < |s.transports| :: s'.transports[u].retirements == s.transports[u].retirements
                                                   && s'.transports[u].written == s.transports[u].written)
            && (forall u | 0 <= u < |s.transports| && (!s.transports[u].isOpen || u in LastReleased(s.refs, s.current, s.queue[0].sentOn)) ::
                  !s'.transports[u].isOpen)
  {
    hide ReleaseRefs, LastReleased, Release;
  }

  lemma PopTransports(s: State, t: nat, ack: Ack)
    requires s.queue != [] && t < |s.transports|
    requires UnusedClosed(s.transports, s.current, s.refs) && RetiredOnce(s.transports, s.current, s.pending)
    ensures var s' := AcceptAck(s, t, ack);
            && UnusedClosed(s'.transports, s'.current, s'.refs)
            && RetiredOnce(s'.transports, s'.current, s'.pending)
            && (forall u | 0 <= u < |s.transports| :: s'.transports[u].retirements == s.transports[u].retirements
                                                   && s'.transports[u].written == s.transports[u].written)
  {
    hide UnusedClosed, RetiredOnce, AcceptAck, ReleaseRefs, LastReleased;
    var s' := AcceptAck(s, t, ack);
    PopShape(s, t, ack);
    PopUnused(s, s'.transports, s.queue[0].sentOn);
    RetiredOnceFrame(s.transports, s'.transports, s.current, s.pending);
  }

  lemma PopQueue(s: State)
    requires s.queue != []
    requires SentPrefix(s.queue, |s.transports|) && WrittenSent(s.queue, s.current, s.pass, s.writing)
    ensures SentPrefix(s.queue[1..], |s.transports|) && WrittenSent(s.queue[1..], s.current, s.pass, s.writing)
  {
    assert forall i | 0 <= i < |s.queue[1..]| :: s.queue[1..][i] == s.queue[i + 1];
  }

  lemma PopLogged(s: State, t: nat, ack: Ack)
    requires s.queue != [] && t < |s.transports| && WritesLogged(|s.accepted|, s.queue, Logs(s.transports))
    ensures WritesLogged(|s.accepted|, s.queue[1..], Logs(AcceptAck(s, t, ack).transports))
    ensures WritingWell(s.writing, |s.accepted|, s.queue, Logs(s.transports)) ==>
              WritingWell(s.writing, |s.accepted|, s.queue[1..], Logs(AcceptAck(s, t, ack).transports))
  {
    assert Logs(AcceptAck(s, t, ack).transports) == Logs(s.transports);
    assert forall i | 0 <= i < |s.queue[1..]| :: s.queue[1..][i] == s.queue[i + 1];
  }

  lemma PopInOrder(s: State, r: Resolution)
    requires s.queue != [] && r.id == s.queue[0].id
    requires InOrder(s.accepted, s.resolutions, s.queue)
    ensures InOrder(s.accepted, s.resolutions + [r], s.queue[1..])
  {
  }

  lemma PopAcks(s: State, ack: Ack)
    requires s.queue != [] && ValidAck(s, s.queue[0], Some(ack))
    requires InOrder(s.accepted, s.resolutions, s.queue) && AcksIncrease(s.accepted, s.resolutions, s.lastAck)
    ensures AcksIncrease(s.accepted, s.resolutions + [Resolution(s.queue[0].id, Acked(ack))], Some(ack))
  {
    var n := |s.resolutions|;
    var rs := s.resolutions + [Resolution(s.queue[0].id, Acked(ack))];
    forall i | 0 <= i < |rs|
      ensures AckCovers(s.accepted, rs[i], Some(ack))
      ensures i < n && rs[i].outcome.Acked? ==> rs[i].outcome.ack.end < ack.end
    {
      if i < n { assert AckCovers(s.accepted, s.resolutions[i], s.lastAck); }
    }
  }

  lemma PopDoubt(s: State, r: Resolution)
    requires s.queue != [] && r.outcome.Acked?
    requires DoubtTracked(|s.accepted|, s.queue, s.resolutions, s.failures)
    ensures DoubtTracked(|s.accepted|, s.queue[1..], s.resolutions + [r], s.failures)
  {
  }

  lemma PopCapacity(s: State)
    requires s.queue != [] && CapacityExact(s.capacity, s.queue, s.reserved)
    ensures CapacityExact(Release(s.capacity, s.queue[0].input.bytes), s.queue[1..], s.reserved)
  {
    var held := Bytes(s.queue) + InputBytes(s.reserved);
    ReleaseHeld(s.capacity, held, 0);
    assert Bytes(s.queue[1..]) + InputBytes(s.reserved) == held[..0] + held[1..];
  }

  lemma PopPolicy(s: State, ts: seq<Transport>)
    requires s.queue != [] && |ts| == |s.transports|
    requires forall u | 0 <= u < |ts| :: ts[u].retirements == s.transports[u].retirements && ts[u].written == s.transports[u].written
    ensures EarlierFailedCleanly(s.cfg.onlyNoSideEffects, s.queue, s.transports, s.current, s.pending, s.late) ==>
              EarlierFailedCleanly(s.cfg.onlyNoSideEffects, s.queue[1..], ts, s.current, s.pending, s.late)
    ensures WritingClean(s.writing, s.transports, s.late) ==> WritingClean(s.writing, ts, s.late)
    ensures LateWell(s.late, s.transports) ==> LateWell(s.late, ts)
  {
    assert forall i | 0 <= i < |s.queue[1..]| :: s.queue[1..][i] == s.queue[i + 1];
  }

  lemma AcceptAckInv(s: State, t: nat, ack: Ack)
    requires Inv(s) && t < |s.transports| && s.queue != [] && t in s.queue[0].sentOn
    requires ValidAck(s, s.queue[0], Some(ack))
    ensures Inv(AcceptAck(s, t, ack))
  {
    hide InOrder, AcksIncrease, RetiredOnce, SentPrefix, WrittenSent, WritesLogged, RefsExact, UnusedClosed,
      WritesCounted, EarlierFailedCleanly, DoubtTracked, CapacityExact, WritingWell, WritingClean, LateWell;
    PopRefs(s);
    PopWrites(s, t, ack);
    PopTransports(s, t, ack);
    PopQueue(s);
    PopLogged(s, t, ack);
    PopInOrder(s, Resolution(s.queue[0].id, Acked(ack)));
    PopAcks(s, ack);
    PopDoubt(s, Resolution(s.queue[0].id, Acked(ack)));
    PopCapacity(s);
    PopPolicy(s, AcceptAck(s, t, ack).transports);
  }

  lemma AckInv(s: State, t: nat, ack: Option<Ack>)
    requires Inv(s)
    ensures Inv(DoAck(s, t, ack))
  {
    if IsTransport(s, t) {
      var s1 := CountAck(s, t);
      CountAckInv(s, t);
      if s1.queue != [] && t in s1.queue[0].sentOn && !StaleAck(s1, ack) {
        if ValidAck(s1, s1.queue[0], ack) { AcceptAckInv(s1, t, ack.value); }
        else { FailAllInv(s1, Plain("append ack invariant violated"), 0); }
      }
    }
  }

  lemma CountAckInv(s: State, t: nat)
    requires Inv(s) && IsTransport(s, t)
    ensures Inv(CountAck(s, t))
  {
    hide Inv;
    AlikeInv(s, CountAck(s, t).transports);
  }

  // ---- resolving a claimed failure ----

  /** Clearing start times and setting doubt flags leaves everything else in the queue alone. */
  ghost predicate SameButFlags(q: seq<Entry>, r: seq<Entry>) {
    |q| == |r| && forall i | 0 <= i < |q| ::
      r[i].(started := q[i].started, priorUncertainty := q[i].priorUncertainty) == q[i]
  }

  lemma FlagsOnlyInv(s: State, q: seq<Entry>)
    requires InOrder(s.accepted, s.resolutions, s.queue) && SentPrefix(s.queue, |s.transports|) && WrittenSent(s.queue, s.current, s.pass, s.writing)
    requires RefsExact(s.queue, s.refs) && WritesCounted(s.queue, s.transports)
    requires WritesLogged(|s.accepted|, s.queue, Logs(s.transports)) && SameButFlags(s.queue, q)
    ensures InOrder(s.accepted, s.resolutions, q) && SentPrefix(q, |s.transports|) && WrittenSent(q, s.current, s.pass, s.writing)
    ensures WritingWell(s.writing, |s.accepted|, s.queue, Logs(s.transports)) ==> WritingWell(s.writing, |s.accepted|, q, Logs(s.transports))
    ensures RefsExact(q, s.refs) && WritesCounted(q, s.transports)
    ensures CapacityExact(s.capacity, s.queue, s.reserved) ==> CapacityExact(s.capacity, q, s.reserved)
    ensures WritesLogged(|s.accepted|, q, Logs(s.transports))
  {
    assert SentLists(q) == SentLists(s.queue);
    assert WrittenLists(q) == WrittenLists(s.queue);
    assert Bytes(q) == Bytes(s.queue);
    assert forall i | 0 <= i < |q| :: q[i].id == s.queue[i].id && q[i].input == s.queue[i].input
                                     && q[i].sentOn == s.queue[i].sentOn && q[i].writtenOn == s.queue[i].writtenOn;
  }

  lemma RecordedDoubt(s: State, c: Claim, q: seq<Entry>)
    requires InOrder(s.accepted, s.resolutions, s.queue)
    requires DoubtTracked(|s.accepted|, s.queue, s.resolutions, s.failures)
    requires SameButFlags(s.queue, q)
    requires forall i | 0 <= i < |q| ::
               q[i].priorUncertainty == (s.queue[i].priorUncertainty ||
                                         (!IsNoSideEffectsError(c.err) && c.transport in s.queue[i].sentOn))
    ensures DoubtTracked(|s.accepted|, q, s.resolutions, RecordFailure(s, c).failures)
  {
    var f := Failure(c.transport, c.err, Carried(s.queue, c.transport));
    var fs := s.failures + [f];
    forall id: nat
      ensures InDoubt(fs, id) <==> InDoubt(s.failures, id) || (id in f.carried && !IsNoSideEffectsError(f.err))
    {
      if InDoubt(s.failures, id) {
        var i :| 0 <= i < |s.failures| && id in s.failures[i].carried && !IsNoSideEffectsError(s.failures[i].err);
        assert fs[i] == s.failures[i];
      }
      if id in f.carried && !IsNoSideEffectsError(f.err) { assert fs[|s.failures|] == f; }
    }
    forall i | 0 <= i < |q| ensures q[i].id in f.carried <==> c.transport in s.queue[i].sentOn
    {
      assert q[i].id == s.queue[i].id;
    }
  }

  /** After the claim is taken up nothing is pending. */
  lemma TakeClaim(s: State)
    requires Inv(s) && s.pending != []
    ensures s.pending == [s.pending[0]] && s.current.None? && TransportErr(s.pending[0].err)
    ensures RetiredOnce(s.transports, s.current, [])
    ensures s.sinceAck == s.attempt
  {
  }

  /** Retrying an unclean failure leaves every entry written on the transport in doubt; under the
      policy it is allowed only when there is none. */
  lemma DischargeClaim(s: State, q: seq<Entry>)
    requires s.pending != [] && RetiredOnce(s.transports, s.current, s.pending)
    requires EarlierFailedCleanly(s.cfg.onlyNoSideEffects, s.queue, s.transports, s.current, s.pending, s.late)
    requires WritesCounted(s.queue, s.transports) && SameButFlags(s.queue, q)
    requires WrittenSent(s.queue, s.current, s.pass, s.writing)
    requires s.cfg.onlyNoSideEffects ==> CanRetryCleanly(s, s.pending[0])
    requires forall i | 0 <= i < |q| ::
               q[i].priorUncertainty == (s.queue[i].priorUncertainty ||
                                         (!IsNoSideEffectsError(s.pending[0].err) && s.pending[0].transport in s.queue[i].sentOn))
    ensures EarlierFailedCleanly(s.cfg.onlyNoSideEffects, q, s.transports, s.current, [], s.late)
  {
    hide IsNoSideEffectsError;
    assert forall i | 0 <= i < |q| :: q[i].writtenOn == s.queue[i].writtenOn && q[i].id == s.queue[i].id;
    var t := s.pending[0].transport;
    assert ClaimRecorded(s.transports, s.pending[0]);
    if IsNoSideEffectsError(s.pending[0].err) {
      assert FailedCleanly(s.transports[t]);
    } else if s.cfg.onlyNoSideEffects {
      MentionsZero(WrittenLists(s.queue), t);
      assert forall i | 0 <= i < |s.queue| :: t !in WrittenLists(s.queue)[i] && WrittenLists(s.queue)[i] == s.queue[i].writtenOn;
    }
  }

  lemma FailClaimInv(s: State, err: Err, extra: nat)
    requires Inv(s) && s.pending != [] && extra <= 1
    ensures Inv(FailAll(s.(pending := [], sinceAck := s.sinceAck + extra), err))
  {
    hide InOrder, AcksIncrease, RetiredOnce, SentPrefix, WrittenSent, WritesLogged, RefsExact, UnusedClosed,
      WritesCounted, EarlierFailedCleanly, DoubtTracked, CapacityExact, WritingWell, WritingClean, LateWell, ReleaseAll, FailEach, Bytes;
    TakeClaim(s);
    FailEachInOrder(s, err);
    FailEachAcks(s, err);
    FailEachDoubt(s, err);
    FailAllCapacity(s);
    FailAllTransports(s.(pending := []));
    EmptyQueue(FailAll(s.(pending := [], sinceAck := s.sinceAck + extra), err));
  }

  lemma RetryClaimInv(s: State, q: seq<Entry>, extra: nat)
    requires Inv(s) && s.pending != [] && extra <= 1 && s.attempt + extra <= MaxAttempts(s) - 1
    requires SameButFlags(s.queue, q)
    requires s.cfg.onlyNoSideEffects ==> CanRetryCleanly(s, s.pending[0])
    requires forall i | 0 <= i < |q| ::
               q[i].priorUncertainty == (s.queue[i].priorUncertainty ||
                                         (!IsNoSideEffectsError(s.pending[0].err) && s.pending[0].transport in s.queue[i].sentOn))
    ensures Inv(RecordFailure(s, s.pending[0]).(pending := [], queue := q, attempt := s.attempt + extra, sinceAck := s.sinceAck + extra))
  {
    hide InOrder, AcksIncrease, RetiredOnce, SentPrefix, WrittenSent, WritesLogged, RefsExact, UnusedClosed,
      WritesCounted, EarlierFailedCleanly, DoubtTracked, CapacityExact, WritingWell, WritingClean, LateWell;
    TakeClaim(s);
    FlagsOnlyInv(s, q);
    RecordedDoubt(s, s.pending[0], q);
    DischargeClaim(s, q);
  }

  lemma RetryAllowed(s: State, c: Claim)
    requires s.pending == [c] && TransportErr(c.err) && Judge(s, c).Retry?
    requires s.attempt <= MaxAttempts(s) - 1
    ensures Judge(s, c).extra <= 1 && s.attempt + Judge(s, c).extra <= MaxAttempts(s) - 1
    ensures s.cfg.onlyNoSideEffects ==> CanRetryCleanly(s, c)
    ensures SameButFlags(s.queue, AfterFailure(s.queue, c))
    ensures var q := AfterFailure(s.queue, c);
            forall i | 0 <= i < |q| ::
              q[i].priorUncertainty == (s.queue[i].priorUncertainty || (!IsNoSideEffectsError(c.err) && c.transport in s.queue[i].sentOn))
  {
    if IsServerDraining(c.err) { DrainIsClean(c.err); }
  }

  lemma ResolveRetryInv(s: State, c: Claim)
    requires Inv(s) && s.pending == [c] && Judge(s, c).Retry?
    ensures Inv(ResolveClaim(s.(pending := []), c))
  {
    hide Inv, AfterFailure, TransportErr, IsServerDraining, IsNoSideEffectsError;
    TakeClaim(s);
    AttemptBound(s);
    RetryAllowed(s, c);
    JudgeIgnoresPending(s, c);
    RetryClaimInv(s, AfterFailure(s.queue, c), Judge(s, c).extra);
  }

  lemma AttemptBound(s: State)
    requires Inv(s)
    ensures s.attempt <= MaxAttempts(s) - 1
  {
  }

  lemma JudgeIgnoresPending(s: State, c: Claim)
    ensures Judge(s, c) == Judge(s.(pending := []), c) && Judge(s, c).extra <= 1
  {
  }

  lemma ResolveInv(s: State)
    requires Inv(s)
    ensures Inv(DoResolve(s))
  {
    hide Inv, Judge, FailAll, RecordFailure, AfterFailure;
    if s.pending != [] {
      var c := s.pending[0];
      TakeClaim(s);
      assert s.pending[1..] == [];
      var s1 := s.(pending := []);
      JudgeIgnoresPending(s, c);
      if Judge(s1, c).Retry? { ResolveRetryInv(s, c); }
      else { FailClaimInv(s, Judge(s1, c).err, Judge(s1, c).extra); }
    }
  }

  // ---- every action, every run ----

  lemma CloseEndsInv(s: State)
    requires Inv(s)
    ensures Inv(DoCloseEnds(s))
  {
    hide InOrder, AcksIncrease, RetiredOnce, SentPrefix, WrittenSent, WritesLogged, RefsExact, UnusedClosed,
      WritesCounted, EarlierFailedCleanly, DoubtTracked, CapacityExact, WritingWell, WritingClean, LateWell;
    if s.closeDone {
      assert FailEach(s.queue, SessionClosed) == [];
      assert s.resolutions + [] == s.resolutions;
      assert Bytes(s.queue) == [];
      FailAllTransports(s);
      EmptyQueue(DoCloseEnds(s));
    }
  }

  lemma FlagsInv(s: State, closing: bool, cancelled: bool, closeDone: bool)
    requires Inv(s)
    requires (s.closing ==> closing) && (s.cancelled ==> cancelled) && (s.closeDone ==> closeDone)
    requires closeDone && !s.closeDone ==> closing && s.queue == []
    ensures Inv(s.(closing := closing, cancelled := cancelled, closeDone := closeDone))
  {
    hide InOrder, AcksIncrease, RetiredOnce, SentPrefix, WrittenSent, WritesLogged, RefsExact, UnusedClosed,
      WritesCounted, EarlierFailedCleanly, DoubtTracked, CapacityExact, WritingWell, WritingClean, LateWell;
  }

  lemma CloseStartsInv(s: State)
    requires Inv(s)
    ensures Inv(s.(closing := true, capacity := s.capacity.(closed := true)))
  {
    hide InOrder, AcksIncrease, RetiredOnce, SentPrefix, WrittenSent, WritesLogged, RefsExact, UnusedClosed,
      WritesCounted, EarlierFailedCleanly, DoubtTracked, WritingWell, WritingClean, LateWell;
  }

  lemma StepInv(s: State, a: Action)
    requires Inv(s)
    ensures Inv(Step(s, a))
  {
    hide Inv, DoReserve, DoEnqueue, DoOpen, DoBeginPass, DoMark, DoFinishWrite, DoEndPass, DoAck, SetAdvice, DoEndCleanly, SessionError, CloseSome, DoTimeOut,
      DoResolve, FailAll, DoCloseEnds, TransportErr;
    match a
    case Reserve(input) => ReserveInv(s, input);
    case Enqueue(k) => EnqueueInv(s, k);
    case Open(failure) => OpenInv(s, failure);
    case BeginPass => BeginPassInv(s);
    case Mark => MarkInv(s);
    case FinishWrite(w) => FinishWriteInv(s, w);
    case EndPass => EndPassInv(s);
    case AckArrives(t, ack) => AckInv(s, t, ack);
    case Advise(t) => AdviceInv(s, t, NoAdvice, Advised);
    case AnswerAdvice(t, accept) => AdviceInv(s, t, Advised, if accept then Accepted else Declined);
    case EndCleanly(t) => EndCleanlyInv(s, t);
    case TransportFails(t, err) => if TransportErr(err) { SessionErrorInv(s, t, err); }
    case TransportCloses(t) => CloseSomeInv(s, {t});
    case TimeOut => TimeOutInv(s);
    case Resolve => ResolveInv(s);
    case CancelContext => FlagsInv(s, s.closing, true, s.closeDone);
    case PumpStops => if s.cancelled && s.pass.None? { FailAllInv(s, SessionClosed, 0); }
    case CloseStarts => CloseStartsInv(s);
    case PumpDrains => if s.closing && s.queue == [] && s.pass.None? { FlagsInv(s, s.closing, s.cancelled, true); }
    case CloseEnds => CloseEndsInv(s);
  }

  /** Every reachable state satisfies the invariant. */
  lemma {:induction false} RunInv(s: State, actions: seq<Action>)
    requires Inv(s)
    ensures Inv(Run(s, actions))
    decreases |actions|
  {
    hide Inv;
    if actions != [] {
      RunInv(s, actions[..|actions| - 1]);
      StepInv(Run(s, actions[..|actions| - 1]), actions[|actions| - 1]);
    }
  }
}
