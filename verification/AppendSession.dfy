/** The append session object (s2/append_session.go): each method is one step of the state machine,
    written the way the source updates its fields. */
module AppendSessions {
  import opened Options
  import opened Errors
  import opened Capacity
  import opened AppendModel
  import opened AppendInvariant
  import opened AppendSteps

  lemma {:induction false} ReleaseAllSnoc(c: Tracker, amounts: seq<int>, last: int)
    ensures ReleaseAll(c, amounts + [last]) == Release(ReleaseAll(c, amounts), last)
    decreases |amounts|
  {
    if amounts == [] {
      assert ([] + [last])[1..] == [];
    } else {
      assert (amounts + [last])[1..] == amounts[1..] + [last];
      ReleaseAllSnoc(Release(c, amounts[0]), amounts[1..], last);
    }
  }

  class AppendSession {
    const cfg: Config
    const capacity: CapacityTracker
    var queue: seq<Entry>
    var refs: map<nat, nat>
    var transports: seq<Transport>
    var current: Option<nat>
    var pending: seq<Claim>
    var pass: Option<nat>
    var passEnd: nat
    var writing: Option<Writing>
    var reserved: seq<Input>
    var attempt: nat
    var lastAck: Option<Ack>
    var closing: bool
    var closed: bool
    var cancelled: bool
    var closeDone: bool
    ghost var accepted: seq<Input>
    ghost var resolutions: seq<Resolution>
    ghost var failures: seq<Failure>
    ghost var sinceAck: nat
    ghost var late: set<Writing>
    var nextId: nat

    ghost function Abs(): (s: State)
      reads this, capacity
      ensures s == State(cfg, queue, refs, transports, current, pending, pass, passEnd, writing, capacity.State(), reserved, attempt, lastAck,
                         closing, closed, cancelled, closeDone, accepted, resolutions, failures, sinceAck, late)
    {
      State(cfg, queue, refs, transports, current, pending, pass, passEnd, writing, capacity.State(), reserved, attempt, lastAck,
            closing, closed, cancelled, closeDone, accepted, resolutions, failures, sinceAck, late)
    }

    ghost predicate Valid()
      reads this, capacity
      ensures Valid() <==> Inv(Abs()) && nextId == |accepted|
    {
      Inv(Abs()) && nextId == |accepted|
    }

    constructor (cfg: Config, maxBytes: nat, maxItems: nat)
      ensures Valid() && fresh(capacity)
      ensures Abs() == Init(cfg, maxBytes, maxItems)
    {
      this.cfg := cfg;
      capacity := new CapacityTracker(maxBytes, maxItems);
      queue, refs, transports, current, pending := [], map[], [], None, [];
      reserved, attempt, lastAck := [], 0, None;
      closing, closed, cancelled, closeDone := false, false, false, false;
      pass, passEnd, writing := None, 0, None;
      accepted, resolutions, failures, sinceAck, nextId, late := [], [], [], 0, 0, {};
      new;
      InitInv(cfg, maxBytes, maxItems);
    }

    // ---- queries ----

    /** Linear search of an entry's sent list. */
    static method WasSentOn(e: Entry, t: nat) returns (found: bool)
      ensures found <==> t in e.sentOn
    {
      for i := 0 to |e.sentOn|
        invariant t !in e.sentOn[..i]
      {
        if e.sentOn[i] == t { return true; }
      }
      return false;
    }

    method HasUnackedOn(t: nat) returns (found: bool)
      ensures found <==> HasUnacked(queue, t)
    {
      for i := 0 to |queue|
        invariant forall j | 0 <= j < i :: t !in queue[j].sentOn
      {
        var sent := WasSentOn(queue[i], t);
        if sent { return true; }
      }
      return false;
    }

    method HasNonIdempotentSentPipelined() returns (found: bool)
      ensures found <==> HasSentUnconditionalBehindHead(queue)
    {
      var i := 1;
      while i < |queue|
        invariant 1 <= i
        invariant forall j | 1 <= j < i && j < |queue| :: queue[j].input.conditional || queue[j].sentOn == []
      {
        if !queue[i].input.conditional && |queue[i].sentOn| > 0 { return true; }
        i := i + 1;
      }
      return false;
    }

    /** The submit pass's search for the next entry not yet sent on `t`. */
    method NextToSend(t: nat) returns (i: nat)
      ensures i == FirstUnsent(queue, t)
    {
      i := 0;
      while i < |queue|
        invariant i <= |queue| && forall j | 0 <= j < i :: t in queue[j].sentOn
      {
        var sent := WasSentOn(queue[i], t);
        if !sent { break; }
        i := i + 1;
      }
      FirstUnsentIs(queue, t, i);
    }

    // ---- reservation and enqueue ----

    method ReserveCapacity(input: Input) returns (r: TryResult)
      requires Valid() && input.bytes > 0
      modifies this, capacity
      ensures Valid() && Abs() == DoReserve(old(Abs()), input)
      ensures r == TryReserve(old(Abs()).capacity, input.bytes, cancelled).0
      ensures r == Reserved <==> reserved == old(reserved) + [input]
    {
      hide Inv;
      ReserveInv(Abs(), input);
      r := capacity.TryToReserve(input.bytes, cancelled);
      if r == Reserved { reserved := reserved + [input]; }
    }

    method EnqueueReserved(k: nat) returns (ok: bool)
      requires Valid() && k < |reserved|
      modifies this, capacity
      ensures Valid() && Abs() == DoEnqueue(old(Abs()), k)
      ensures ok <==> !old(closing)
    {
      hide *;
      EnqueueInv(Abs(), k);
      EnqueueIs(Abs(), k);
      var input, rest := reserved[k], reserved[..k] + reserved[k + 1..];
      if closing {
        reserved := rest;
        capacity.GiveBack(input.bytes);
        return false;
      }
      AcceptEntry(input, rest);
      return true;
    }

    method AcceptEntry(input: Input, rest: seq<Input>)
      modifies this`reserved, this`queue, this`nextId, this`accepted
      ensures Abs() == old(Abs()).(reserved := rest, queue := old(queue) + [Entry(old(nextId), input, false, [], false, [])],
                                   accepted := old(accepted) + [input])
      ensures nextId == old(nextId) + 1
    {
      hide *;
      PutEntry(rest, queue + [Entry(nextId, input, false, [], false, [])], accepted + [input]);
    }

    method PutEntry(rest: seq<Input>, longer: seq<Entry>, ghost more: seq<Input>)
      modifies this`reserved, this`queue, this`nextId, this`accepted
      ensures Abs() == old(Abs()).(reserved := rest, queue := longer, accepted := more) && nextId == old(nextId) + 1
    {
      hide *;
      reserved, queue, nextId, accepted := rest, longer, nextId + 1, more;
    }

    // ---- closing transports and failing entries ----

    method CloseTransport(t: nat)
      modifies this`transports
      ensures transports == CloseSome(old(transports), {t})
    {
      if t < |transports| { transports := transports[t := transports[t].(isOpen := false)]; }
    }

    method CloseAll(doomed: set<nat>)
      modifies this`transports
      ensures transports == CloseSome(old(transports), doomed)
    {
      var rest := doomed;
      while rest != {}
        invariant rest <= doomed
        invariant transports == CloseSome(old(transports), doomed - rest)
        decreases |rest|
      {
        var t :| t in rest;
        CloseTransport(t);
        rest := rest - {t};
      }
      assert doomed - rest == doomed;
    }

    method CloseTransportIfUnused(t: nat)
      modifies this`transports
      ensures Abs() == CloseIfUnused(old(Abs()), t)
    {
      if t !in refs && t < |transports| { CloseTransport(t); }
    }

    /** The loop of `failAllInflightLocked`: resolve and release every entry in queue order. */
    method ResolveAllWith(err: Err)
      modifies this`resolutions, capacity
      ensures resolutions == old(resolutions) + FailEach(queue, err)
      ensures capacity.State() == ReleaseAll(old(capacity.State()), Bytes(queue))
    {
      assert FailEach(queue[..0], err) == [] && Bytes(queue[..0]) == [];
      for i := 0 to |queue|
        invariant resolutions == old(resolutions) + FailEach(queue[..i], err)
        invariant capacity.State() == ReleaseAll(old(capacity.State()), Bytes(queue[..i]))
      {
        var e := queue[i];
        resolutions := resolutions + [Resolution(e.id, Failed(err, WithPriorUncertainty(err, e.priorUncertainty)))];
        capacity.GiveBack(e.input.bytes);
        ReleaseAllSnoc(old(capacity.State()), Bytes(queue[..i]), e.input.bytes);
        assert Bytes(queue[..i + 1]) == Bytes(queue[..i]) + [e.input.bytes];
        assert FailEach(queue[..i + 1], err) ==
               FailEach(queue[..i], err) + [Resolution(e.id, Failed(err, WithPriorUncertainty(err, e.priorUncertainty)))];
      }
      assert queue[..|queue|] == queue;
    }

    /** `collectSessionRefsLocked` and the closing of what it collects, with the current transport. */
    method DropTransports()
      modifies this`transports, this`refs
      ensures refs == map[] && transports == CloseSome(old(transports), Referenced(old(Abs())))
    {
      var doomed := refs.Keys;
      if current.Some? { doomed := doomed + {current.value}; }
      CloseAll(doomed);
      refs := map[];
    }

    /** `failAllInflightLocked`: every entry is resolved and released, every transport dropped. */
    method FailAllLocked(err: Err)
      modifies this`queue, this`refs, this`transports, this`resolutions, capacity
      ensures var s := old(Abs());
              Abs() == s.(queue := [], refs := map[], transports := CloseSome(s.transports, Referenced(s)),
                          capacity := ReleaseAll(s.capacity, Bytes(s.queue)), resolutions := s.resolutions + FailEach(s.queue, err))
    {
      hide ReleaseAll, FailEach, CloseSome, Referenced, Bytes;
      DropTransports();
      ResolveAllWith(err);
      queue := [];
    }

    method FailAllInflight(err: Err)
      modifies this`queue, this`refs, this`transports, this`closing, this`closed, this`cancelled, this`closeDone,
               this`resolutions, capacity
      ensures Abs() == FailAll(old(Abs()), err)
    {
      hide ReleaseAll, FailEach, CloseSome, Referenced, Bytes;
      FailAllLocked(err);
      capacity.Close();
      closing, closed, cancelled, closeDone := true, true, true, true;
    }

    // ---- opening and submitting ----

    /** `handleSessionStartError` */
    method HandleSessionStartError(err: Err)
      modifies this`queue, this`refs, this`transports, this`closing, this`closed, this`cancelled, this`closeDone,
               this`resolutions, this`attempt, this`sinceAck, capacity
      ensures Abs() == StartError(old(Abs()), err)
    {
      hide *;
      StartErrorIs(Abs(), err);
      var maxAttempts := if cfg.maxAttempts < 1 then 1 else cfg.maxAttempts;
      if attempt >= maxAttempts - 1 {
        Charge(0, 1);
        FailAllInflight(Exhausted(err));
      } else {
        Charge(1, 1);
      }
    }

    method OpenTransport(failure: Option<Err>)
      requires Valid()
      modifies this, capacity
      ensures Valid() && Abs() == DoOpen(old(Abs()), failure)
    {
      hide Inv, FailAll, StartError, IsRetryableErr;
      OpenInv(Abs(), failure);
      if cancelled || pass.Some? || queue == [] || current.Some? || pending != [] { return; }
      if failure.None? {
        current := Some(|transports|);
        transports := transports + [Transport(true, 0, NoAdvice, [], 0, [])];
      } else if IsRetryableErr(failure.value) {
        HandleSessionStartError(failure.value);
      } else {
        FailAllInflight(failure.value);
      }
    }

    /** The transport of a submit pass is the one in use when it begins, and its entries are those then queued. */
    method BeginSubmitPass() returns (begun: bool)
      requires Valid()
      modifies this`pass, this`passEnd
      ensures Valid() && Abs() == DoBeginPass(old(Abs())) && begun == (old(pass).None? && pass.Some?)
      ensures begun ==> old(current).Some? && pass == old(current) && passEnd == nextId
      ensures !begun ==> Abs() == old(Abs())
    {
      hide Inv;
      BeginPassInv(Abs());
      begun := !cancelled && pass.None? && current.Some? && current.value < |transports| && !HoldsInputs(transports[current.value]);
      if begun { pass, passEnd := current, nextId; }
    }

    /** The locked part of one turn: the next entry is marked, with its reference. */
    method MarkNext() returns (marked: bool)
      requires Valid() && pass.Some? && writing.None?
      modifies this`queue, this`refs, this`writing
      ensures Valid() && Abs() == DoMark(old(Abs())) && marked == writing.Some?
      ensures marked ==> writing.value.transport < |transports|
      ensures !marked ==> Served(queue, passEnd, pass.value)
    {
      hide *;
      MarkInv(Abs());
      MarkIs(Abs());
      PassServed(Abs());
      var t := pass.value;
      if t >= |transports| { return false; }
      var i := NextToSend(t);
      if i == |queue| || queue[i].id >= passEnd { return false; }
      var e := queue[i];
      Install(queue[i := e.(sentOn := e.sentOn + [t], started := true)], refs[t := (if t in refs then refs[t] else 0) + 1], Writing(e.id, t));
      return true;
    }

    method Install(marked: seq<Entry>, counted: map<nat, nat>, w: Writing)
      modifies this`queue, this`refs, this`writing
      ensures Abs() == old(Abs()).(queue := marked, refs := counted, writing := Some(w)) && writing == Some(w)
    {
      hide *;
      queue, refs, writing := marked, counted, Some(w);
    }

    /** `appendInput` signals the write before it happens. */
    method SignalWrite()
      requires writing.Some? && writing.value.transport < |transports|
      modifies this`queue, this`transports, this`writing, this`late
      ensures Abs() == LogWrite(old(Abs()))
      ensures writing.None? && |transports| == |old(transports)|
    {
      hide *;
      WriteIs(Abs());
      var w := writing.value;
      ghost var more := if RetiredUncleanly(Abs(), w.transport) then late + {w} else late;
      NoteWritten(w);
      CountWrite(w, more);
    }

    method CountWrite(w: Writing, ghost more: set<Writing>)
      requires w.transport < |transports|
      modifies this`transports, this`writing, this`late
      ensures |transports| == |old(transports)| && writing.None?
      ensures var tr := old(transports)[w.transport];
              Abs() == old(Abs()).(writing := None, late := more,
                                   transports := old(transports)[w.transport := tr.(pendingWrites := tr.pendingWrites + 1, written := tr.written + [w.id])])
    {
      hide *;
      var tr := transports[w.transport];
      var counted := transports[w.transport := tr.(pendingWrites := tr.pendingWrites + 1, written := tr.written + [w.id])];
      transports, writing := counted, None;
      late := more;
    }

    method NoteWritten(w: Writing)
      modifies this`queue
      ensures queue == WrittenTo(old(queue), w)
    {
      ghost var q := queue;
      for i := 0 to |queue|
        invariant |queue| == |q| && forall j | 0 <= j < |q| :: queue[j] == if j < i then WrittenTo(q, w)[j] else q[j]
      {
        if queue[i].id == w.id { queue := queue[i := queue[i].(writtenOn := queue[i].writtenOn + [w.transport])]; }
      }
    }

    /** The unlocked part of the turn; false when the pass ends with it. */
    method FinishTurn(w: Write) returns (goOn: bool)
      requires Valid() && writing.Some? && writing.value.transport < |transports| && CanAnswer(Abs(), w)
      modifies this
      ensures Valid() && Abs() == DoFinishWrite(old(Abs()), w)
      ensures goOn == w.Written? && writing.None? && pass == (if goOn then old(pass) else None) && passEnd == old(passEnd)
    {
      hide *;
      FinishIs(Abs(), w);
      FinishWriteInv(Abs(), w);
      if w.FailedBefore? {
        FailTurn(writing.value.transport, w.err);
        return false;
      }
      var t := writing.value.transport;
      SignalWrite();
      if w.Written? { return true; }
      FailTurn(t, w.err);
      return false;
    }

    method Answerable(w: Write) returns (b: bool)
      requires writing.Some? && writing.value.transport < |transports|
      ensures b <==> CanAnswer(Abs(), w)
    {
      hide TransportErr;
      match w {
        case Written => return transports[writing.value.transport].isOpen;
        case FailedBefore(err) => return TransportErr(err);
        case FailedAfter(err) => return TransportErr(err);
      }
    }

    /** A failed write ends the pass; the transport fails with it. */
    method FailTurn(t: nat, err: Err)
      requires t < |transports|
      modifies this`pass, this`writing, this`current, this`pending, this`transports
      ensures Abs() == SessionError(StopPass(old(Abs())), t, err) && pass.None? && writing.None?
    {
      hide SessionError;
      pass, writing := None, None;
      HandleSessionError(t, err);
    }

    method EndSubmitPass()
      requires Valid() && writing.None?
      modifies this`pass
      ensures Valid() && Abs() == DoEndPass(old(Abs())) && pass.None?
    {
      hide *;
      EndPassInv(Abs());
      EndIs(Abs());
      pass := None;
    }

    /** `submitInflightBatches`: mark and write, entry by entry, until all that were queued are sent, a
        write fails or the next one has not returned. `answers` says how the writes go. */
    method SubmitInflightBatches(answers: seq<Write>) returns (used: nat, complete: bool, ghost done: seq<Action>)
      requires Valid() && pass.None?
      modifies this
      ensures Valid() && Abs() == Run(old(Abs()), done)
      ensures forall a | a in done :: a.BeginPass? || a.Mark? || a.FinishWrite? || a.EndPass?
      ensures used <= |answers| && (writing.Some? ==> pass.Some?)
      ensures complete ==> pass.None? && old(current).Some? && Served(queue, old(nextId), old(current).value)
      ensures !complete && writing.None? ==> Abs() == old(Abs()) || (used > 0 && !answers[used - 1].Written?)
    {
      hide *;
      ghost var start := Abs();
      used, complete, done := 0, false, [];
      RunNone(start);
      PumpIdle(Abs());
      var begun := BeginSubmitPass();
      if !begun { return; }
      done := RunBegin(start, done);
      while true
        invariant Valid() && writing.None? && used <= |answers| && Abs() == Run(start, done)
        invariant old(current).Some? && pass == old(current) && passEnd == old(nextId)
        invariant forall a | a in done :: a.BeginPass? || a.Mark? || a.FinishWrite? || a.EndPass?
        decreases |answers| - used
      {
        var marked := MarkNext();
        done := RunMark(start, done);
        if !marked { break; }
        if used == |answers| { return; }
        var possible := Answerable(answers[used]);
        if !possible { return; }
        var goOn := FinishTurn(answers[used]);
        done := RunFinish(start, done, answers[used]);
        used := used + 1;
        if !goOn { return; }
      }
      EndSubmitPass();
      complete := true;
      done := RunEnd(start, done);
    }

    // ---- acknowledgements ----

    /** `releaseEntrySessionsLocked` followed by `closeStaleSessions`. */
    method ReleaseEntry(sent: seq<nat>)
      requires NoRepeats(sent)
      modifies this`refs, this`transports
      ensures refs == ReleaseRefs(old(refs), sent)
      ensures transports == CloseSome(old(transports), LastReleased(old(refs), current, sent))
    {
      var doomed := {};
      ghost var before := refs;
      for i := 0 to |sent|
        invariant refs == ReleaseRefs(before, sent[..i]) && transports == old(transports)
        invariant doomed == set t | t in before && t in sent[..i] && before[t] <= 1
      {
        var t := sent[i];
        assert sent[..i + 1] == sent[..i] + [t] && t !in sent[..i];
        if t in refs {
          if refs[t] <= 1 {
            refs := refs - {t};
            doomed := doomed + {t};
          } else {
            refs := refs[t := refs[t] - 1];
          }
        }
      }
      assert sent[..|sent|] == sent;
      CloseAll(if current.Some? then doomed - {current.value} else doomed);
      assert (if current.Some? then doomed - {current.value} else doomed)
          == LastReleased(before, current, sent);
    }

    /** `markAckReceived` */
    method TakePendingWrite(t: nat)
      requires t < |transports|
      modifies this`transports
      ensures transports == old(transports)[t := old(transports)[t].(pendingWrites :=
                if old(transports)[t].pendingWrites > 0 then old(transports)[t].pendingWrites - 1 else 0)]
    {
      var tr := transports[t];
      if tr.pendingWrites > 0 { transports := transports[t := tr.(pendingWrites := tr.pendingWrites - 1)]; }
    }

    /** Take the head off the queue with its references, its capacity and one pending write of `t`. */
    method PopHead(t: nat) returns (e: Entry)
      requires t < |transports| && queue != [] && NoRepeats(queue[0].sentOn)
      modifies this`queue, this`refs, this`transports, capacity
      ensures e == old(queue)[0] && queue == old(queue)[1..]
      ensures refs == ReleaseRefs(old(refs), e.sentOn)
      ensures transports == CloseSome(old(transports)[t := old(transports)[t].(pendingWrites :=
                if old(transports)[t].pendingWrites > 0 then old(transports)[t].pendingWrites - 1 else 0)],
                LastReleased(old(refs), current, e.sentOn))
      ensures capacity.State() == Release(old(capacity.State()), e.input.bytes)
    {
      hide ReleaseRefs, CloseSome, Release, LastReleased, NoRepeats;
      e := queue[0];
      queue := queue[1..];
      TakePendingWrite(t);
      ReleaseEntry(e.sentOn);
      capacity.GiveBack(e.input.bytes);
    }

    /** Pop the head, which `ack` received on `t` resolves. */
    method AcceptHead(t: nat, ack: Ack)
      requires t < |transports| && queue != [] && NoRepeats(queue[0].sentOn)
      modifies this`queue, this`refs, this`transports, this`lastAck, this`attempt, this`sinceAck, this`resolutions, capacity
      ensures Abs() == AcceptAck(old(Abs()), t, ack)
    {
      hide ReleaseRefs, CloseSome, Release, LastReleased, NoRepeats;
      var e := PopHead(t);
      lastAck, attempt := Some(ack), 0;
      sinceAck, resolutions := 0, resolutions + [Resolution(e.id, Acked(ack))];
    }

    /** The checks of `handleAck`, in source order: an ack is ignored, breaks an invariant, or is accepted. */
    method ClassifyAck(t: nat, ack: Option<Ack>) returns (ignored: bool, valid: bool)
      ensures ignored <==> queue == [] || t !in queue[0].sentOn || StaleAck(Abs(), ack)
      ensures !ignored ==> (valid <==> ValidAck(Abs(), queue[0], ack))
    {
      if |queue| == 0 { return true, false; }
      var e := queue[0];
      var sent := WasSentOn(e, t);
      if !sent { return true, false; }
      if ack.Some? && lastAck.Some? && ack.value.end <= lastAck.value.end { return true, false; }
      return false, ack.Some? && ack.value.end >= ack.value.start && ack.value.end - ack.value.start == e.input.count;
    }

    method CountArrival(t: nat)
      requires t < |transports|
      modifies this`transports
      ensures Abs() == CountAck(old(Abs()), t) && |transports| == |old(transports)|
    {
      transports := transports[t := transports[t].(acks := transports[t].acks + 1)];
    }

    method ApplyAck(t: nat, ack: Option<Ack>)
      requires t < |transports| && (queue != [] ==> NoRepeats(queue[0].sentOn))
      modifies this`queue, this`refs, this`transports, this`closing, this`closed, this`cancelled, this`closeDone,
               this`lastAck, this`attempt, this`sinceAck, this`resolutions, capacity
      ensures Abs() == HandleAck(old(Abs()), t, ack)
    {
      hide FailAll, AcceptAck, StaleAck, NoRepeats;
      var ignored, valid := ClassifyAck(t, ack);
      if ignored { return; }
      if !valid {
        FailAllInflight(Plain("append ack invariant violated"));
      } else {
        AcceptHead(t, ack.value);
      }
    }

    method HandleAckOn(t: nat, ack: Option<Ack>)
      requires Valid() && t < |transports|
      modifies this, capacity
      ensures Valid() && Abs() == DoAck(old(Abs()), t, ack)
    {
      hide Inv, HandleAck, CountAck, NoRepeats;
      HeadListsOnce(Abs());
      AckInv(Abs(), t, ack);
      CountArrival(t);
      ApplyAck(t, ack);
    }

    // ---- failures ----

    /** Clear the current transport and record why. */
    method Retire(cause: Cause, claims: seq<Claim>)
      requires current.Some? && current.value < |transports|
      modifies this`current, this`pending, this`transports
      ensures Abs() == RetireCurrent(old(Abs()), cause, claims)
    {
      var t := current.value;
      current := None;
      pending := pending + claims;
      transports := transports[t := transports[t].(retirements := transports[t].retirements + [cause])];
      CloseTransportIfUnused(t);
    }

    method HandleSessionError(t: nat, err: Err)
      requires t < |transports|
      modifies this`current, this`pending, this`transports
      ensures Abs() == SessionError(old(Abs()), t, err)
    {
      if closed { return; }
      if current == Some(t) {
        Retire(FailedWith(err), [Claim(t, err)]);
      } else {
        CloseTransportIfUnused(t);
      }
    }

    method TransportFailed(t: nat, err: Err)
      requires Valid() && t < |transports| && TransportErr(err)
      modifies this`current, this`pending, this`transports
      ensures Valid() && Abs() == SessionError(old(Abs()), t, err)
    {
      hide Inv, SessionError;
      SessionErrorInv(Abs(), t, err);
      HandleSessionError(t, err);
    }

    method HandleReconnectAdvice(t: nat)
      requires Valid() && t < |transports|
      modifies this`current, this`pending, this`transports
      ensures Valid() && Abs() == DoEndCleanly(old(Abs()), t)
    {
      hide Inv, DoEndCleanly;
      EndCleanlyInv(Abs(), t);
      EndResponse(t);
    }

    method EndResponse(t: nat)
      requires t < |transports|
      modifies this`current, this`pending, this`transports
      ensures Abs() == DoEndCleanly(old(Abs()), t)
    {
      hide SessionError, RetireCurrent, CloseIfUnused, HasUnacked;
      if !transports[t].advice.Accepted? || closed { return; }
      var unacked := HasUnackedOn(t);
      if unacked {
        HandleSessionError(t, Plain("append session ended before acknowledging all appends"));
      } else if current == Some(t) {
        Retire(MovedOnAdvice, []);
      } else {
        CloseTransportIfUnused(t);
      }
    }

    /** The head's deadline has passed. */
    method CheckTimeouts()
      requires Valid()
      modifies this`current, this`pending, this`transports
      ensures Valid() && Abs() == DoTimeOut(old(Abs()))
    {
      hide Inv, RetireCurrent;
      TimeOutInv(Abs());
      if cancelled || closed || pass.Some? || |queue| == 0 || !queue[0].started { return; }
      if current.Some? && current.value < |transports| {
        Retire(TimedOut(TIMEOUT_ERROR), [Claim(current.value, TIMEOUT_ERROR)]);
      }
    }

    method MarkInflightUncertainty(t: nat)
      modifies this`queue
      ensures queue == MarkUncertain(old(queue), t)
    {
      for i := 0 to |queue|
        invariant |queue| == |old(queue)|
        invariant forall j | 0 <= j < i :: queue[j] == MarkUncertain(old(queue), t)[j]
        invariant forall j | i <= j < |queue| :: queue[j] == old(queue)[j]
      {
        var sent := WasSentOn(queue[i], t);
        if sent { queue := queue[i := queue[i].(priorUncertainty := true)]; }
      }
    }

    method ResetInflightAttemptStarts()
      modifies this`queue
      ensures queue == ResetStarts(old(queue))
    {
      for i := 0 to |queue|
        invariant |queue| == |old(queue)|
        invariant forall j | 0 <= j < i :: queue[j] == old(queue)[j].(started := false)
        invariant forall j | i <= j < |queue| :: queue[j] == old(queue)[j]
      {
        queue := queue[i := queue[i].(started := false)];
      }
    }

    /** The retry branch: remember doubt and restart the clocks. */
    method PrepareRetry(c: Claim, drained: bool)
      requires drained == IsServerDraining(c.err)
      modifies this`queue, this`failures
      ensures Abs() == RecordFailure(old(Abs()), c).(queue := AfterFailure(old(queue), c))
    {
      hide MarkUncertain, ResetStarts, Carried, IsServerDraining, IsNoSideEffectsError;
      failures := failures + [Failure(c.transport, c.err, Carried(queue, c.transport))];
      if !drained && !IsNoSideEffectsError(c.err) { MarkInflightUncertainty(c.transport); }
      ResetInflightAttemptStarts();
    }

    /** The decisions of `handleClaimedSessionError`, in source order. */
    method JudgeClaim(c: Claim) returns (v: Verdict)
      ensures v == Judge(Abs(), c)
    {
      hide IsServerDraining, IsNoSideEffectsError, IsRetryable, AsS2, HasSentUnconditionalBehindHead;
      if IsServerDraining(c.err) { return Retry(0); }
      if cfg.onlyNoSideEffects {
        var canRetry := IsNoSideEffectsError(c.err) ||
                        (c.transport < |transports| && transports[c.transport].pendingWrites == 0);
        if !canRetry { return GiveUp(c.err, 0); }
        var pipelined := HasNonIdempotentSentPipelined();
        if pipelined { return GiveUp(c.err, 0); }
      }
      if AsS2(c.err).Some? && !IsRetryable(AsS2(c.err).value) { return GiveUp(c.err, 0); }
      var maxAttempts := if cfg.maxAttempts < 1 then 1 else cfg.maxAttempts;
      if attempt >= maxAttempts - 1 { return GiveUp(Exhausted(c.err), 1); }
      return Retry(1);
    }

    method ResolveTaken(c: Claim)
      modifies this`queue, this`refs, this`transports, this`closing, this`closed, this`cancelled, this`closeDone,
               this`resolutions, this`failures, this`attempt, this`sinceAck, capacity
      ensures Abs() == ResolveClaim(old(Abs()), c)
    {
      hide *;
      ResolveIs(Abs(), c);
      var v := JudgeClaim(c);
      match v {
        case GiveUp(err, extra) =>
          Charge(0, extra);
          FailAllInflight(err);
        case Retry(extra) =>
          PrepareRetry(c, IsServerDraining(c.err));
          Charge(extra, extra);
      }
    }

    method Charge(extra: nat, ghost counted: nat)
      modifies this`attempt, this`sinceAck
      ensures Abs() == old(Abs()).(attempt := old(attempt) + extra, sinceAck := old(sinceAck) + counted)
    {
      hide *;
      attempt := attempt + extra;
      sinceAck := sinceAck + counted;
    }

    /** Retry or fail the inflight entries of the claimed failure. */
    method HandleClaimedSessionError()
      requires Valid() && pending != []
      modifies this, capacity
      ensures Valid() && Abs() == DoResolve(old(Abs()))
    {
      hide Inv, ResolveClaim;
      ResolveInv(Abs());
      var c := pending[0];
      pending := pending[1..];
      ResolveTaken(c);
    }

    // ---- closing ----

    method BeginClose()
      requires Valid()
      modifies this`closing, capacity
      ensures Valid() && Abs() == old(Abs()).(closing := true, capacity := old(capacity.State()).(closed := true))
    {
      hide Inv;
      CloseStartsInv(Abs());
      closing := true;
      capacity.Close();
    }

    method PumpSeesEmptyQueue() returns (stop: bool)
      requires Valid() && pass.None?
      modifies this`closeDone
      ensures Valid() && Abs() == old(Abs()).(closeDone := closeDone)
      ensures closeDone == (old(closeDone) || stop)
      ensures stop <==> closing && queue == []
    {
      hide Inv;
      stop := closing && |queue| == 0;
      if stop {
        FlagsInv(Abs(), closing, cancelled, true);
        closeDone := true;
      }
    }

    method FinishClose()
      requires Valid() && closeDone
      modifies this, capacity
      ensures Valid() && Abs() == DoCloseEnds(old(Abs()))
    {
      hide Inv, ReleaseAll, FailEach, CloseSome, Referenced, Bytes;
      CloseEndsInv(Abs());
      FailAllLocked(SessionClosed);
      closed, cancelled := true, true;
    }
  }

  lemma HeadListsOnce(s: State)
    requires Inv(s)
    ensures s.queue != [] ==> NoRepeats(s.queue[0].sentOn)
  {
  }

  lemma MarkIs(s: State)
    requires s.pass.Some? && s.writing.None?
    ensures var t := s.pass.value;
            var i := FirstUnsent(s.queue, t);
            DoMark(s) == if t >= |s.transports| || i == |s.queue| || s.queue[i].id >= s.passEnd then s
                         else s.(queue := s.queue[i := s.queue[i].(sentOn := s.queue[i].sentOn + [t], started := true)],
                                 refs := s.refs[t := (if t in s.refs then s.refs[t] else 0) + 1],
                                 writing := Some(Writing(s.queue[i].id, t)))
  {
  }

  /** Every entry numbered below `end` lists `t`. */
  ghost predicate Served(q: seq<Entry>, end: nat, t: nat) {
    forall i | 0 <= i < |q| && q[i].id < end :: t in q[i].sentOn
  }

  lemma PassServed(s: State)
    requires Inv(s) && s.pass.Some? && s.writing.None?
    ensures s.pass.value < |s.transports| && (CanMark(s) || Served(s.queue, s.passEnd, s.pass.value))
    ensures var i := FirstUnsent(s.queue, s.pass.value);
            CanMark(s) <==> i < |s.queue| && s.queue[i].id < s.passEnd
  {
    hide AcksIncrease, RetiredOnce, SentPrefix, WrittenSent, WritesLogged, RefsExact, UnusedClosed,
      WritesCounted, EarlierFailedCleanly, DoubtTracked, CapacityExact, WritingWell, WritingClean, LateWell;
  }

  lemma WriteIs(s: State)
    requires s.writing.Some? && s.writing.value.transport < |s.transports|
    ensures IsTransport(s, s.writing.value.transport)
    ensures var w := s.writing.value;
            var tr := s.transports[w.transport];
            LogWrite(s) ==
            s.(writing := None, queue := WrittenTo(s.queue, w), late := if RetiredUncleanly(s, w.transport) then s.late + {w} else s.late,
               transports := s.transports[w.transport := tr.(pendingWrites := tr.pendingWrites + 1, written := tr.written + [w.id])])
  {
    hide WrittenTo, RetiredUncleanly;
  }

  /** The environment can answer the write in this way. */
  predicate CanAnswer(s: State, w: Write)
    requires s.writing.Some? && s.writing.value.transport < |s.transports|
  {
    match w
    case Written => s.transports[s.writing.value.transport].isOpen
    case FailedBefore(err) => TransportErr(err)
    case FailedAfter(err) => TransportErr(err)
  }

  lemma FinishIs(s: State, w: Write)
    requires s.writing.Some? && s.writing.value.transport < |s.transports| && CanAnswer(s, w)
    ensures var t := s.writing.value.transport;
            DoFinishWrite(s, w) ==
            match w
            case Written => LogWrite(s)
            case FailedBefore(err) => SessionError(StopPass(s), t, err)
            case FailedAfter(err) => SessionError(StopPass(LogWrite(s)), t, err)
    ensures IsTransport(s, s.writing.value.transport) && DoFinishWrite(s, w).passEnd == s.passEnd
  {
    hide TransportErr, LogWrite;
    hide SessionError;
    LogFrame(s);
    ErrorKeepsEnd(StopPass(s), s.writing.value.transport, if w.Written? then SessionClosed else w.err);
    ErrorKeepsEnd(StopPass(LogWrite(s)), s.writing.value.transport, if w.Written? then SessionClosed else w.err);
  }

  lemma ErrorKeepsEnd(s: State, t: nat, err: Err)
    ensures SessionError(s, t, err).passEnd == s.passEnd
  {
  }

  lemma ResolveIs(s: State, c: Claim)
    ensures match Judge(s, c)
            case GiveUp(err, extra) => ResolveClaim(s, c) == FailAll(s.(attempt := s.attempt + 0, sinceAck := s.sinceAck + extra), err)
            case Retry(extra) =>
              var r := RecordFailure(s, c).(queue := AfterFailure(s.queue, c));
              ResolveClaim(s, c) == r.(attempt := r.attempt + extra, sinceAck := r.sinceAck + extra)
  {
    hide FailAll, AfterFailure, Judge, Carried;
  }

  lemma StartErrorIs(s: State, err: Err)
    ensures StartError(s, err) ==
            if s.attempt >= (if s.cfg.maxAttempts < 1 then 1 else s.cfg.maxAttempts) - 1
            then FailAll(s.(attempt := s.attempt + 0, sinceAck := s.sinceAck + 1), Exhausted(err))
            else s.(attempt := s.attempt + 1, sinceAck := s.sinceAck + 1)
  {
    hide FailAll;
  }

  lemma EndIs(s: State)
    requires s.writing.None?
    ensures DoEndPass(s) == s.(pass := None)
  {
  }

  lemma PumpIdle(s: State)
    requires Inv(s) && s.pass.None?
    ensures s.writing.None?
  {
  }

  lemma RunNone(s: State)
    ensures Run(s, []) == s
  {
  }

  /** The run goes on by one of the pump's steps. */
  lemma RunMore(s: State, done: seq<Action>, a: Action) returns (more: seq<Action>)
    ensures more == done + [a] && Run(s, more) == Step(Run(s, done), a)
  {
    hide Step;
    more := done + [a];
    assert more[..|more| - 1] == done;
  }

  lemma RunBegin(s: State, done: seq<Action>) returns (more: seq<Action>)
    ensures more == done + [BeginPass] && Run(s, more) == DoBeginPass(Run(s, done))
  {
    hide DoBeginPass, Run;
    more := RunMore(s, done, BeginPass);
  }

  lemma RunMark(s: State, done: seq<Action>) returns (more: seq<Action>)
    ensures more == done + [Mark] && Run(s, more) == DoMark(Run(s, done))
  {
    hide DoMark, Run;
    more := RunMore(s, done, Mark);
  }

  lemma RunFinish(s: State, done: seq<Action>, w: Write) returns (more: seq<Action>)
    ensures more == done + [FinishWrite(w)] && Run(s, more) == DoFinishWrite(Run(s, done), w)
  {
    hide DoFinishWrite, Run;
    more := RunMore(s, done, FinishWrite(w));
  }

  lemma RunEnd(s: State, done: seq<Action>) returns (more: seq<Action>)
    ensures more == done + [EndPass] && Run(s, more) == DoEndPass(Run(s, done))
  {
    hide DoEndPass, Run;
    more := RunMore(s, done, EndPass);
  }

  lemma EnqueueIs(s: State, k: nat)
    requires k < |s.reserved|
    ensures var input := s.reserved[k];
            var rest := s.reserved[..k] + s.reserved[k + 1..];
            DoEnqueue(s, k) == if s.closing then s.(reserved := rest, capacity := Release(s.capacity, input.bytes))
                               else s.(reserved := rest, queue := s.queue + [Entry(|s.accepted|, input, false, [], false, [])],
                                       accepted := s.accepted + [input])
  {
  }
}
