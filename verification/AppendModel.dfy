/** The append session as a state machine (s2/append_session.go, s2/append.go).

    Every action is one lock region of the source together with the unlocked calls that
    follow it at once (closing a transport, returning capacity, filling a result channel).
    The pump is one goroutine: while a submit pass is under way it does nothing else, but acks, failures
    and their judgement come in between marking an entry and writing it.
    The environment chooses write results, acknowledgements, errors, advice, timeouts and
    cancellation. A disabled action leaves the state as it is, so every list of actions is a run.
    Fields after `// history` only record what happened; no decision depends on them, except that
    entries are numbered by how many were accepted before.
 */
module AppendModel {
  import opened Options
  import opened Errors
  import opened Capacity

  datatype Ack = Ack(start: nat, end: nat)

  /** A validated batch: record count, metered bytes, and whether it carries a match sequence number. */
  datatype Input = Input(count: nat, bytes: nat, conditional: bool)

  datatype Entry = Entry(id: nat, input: Input, started: bool, sentOn: seq<nat>, priorUncertainty: bool,
                         // history
                         writtenOn: seq<nat>)

  datatype Advice = NoAdvice | Advised | Accepted | Declined

  datatype Cause = FailedWith(err: Err) | TimedOut(err: Err) | MovedOnAdvice

  datatype Transport = Transport(isOpen: bool, pendingWrites: nat, advice: Advice,
                                 // history
                                 written: seq<nat>, acks: nat, retirements: seq<Cause>)

  datatype Claim = Claim(transport: nat, err: Err)

  datatype Outcome = Acked(ack: Ack) | Failed(cause: Err, reported: Err)

  datatype Resolution = Resolution(id: nat, outcome: Outcome)

  /** A transport failure that was retried, with the entries that listed the transport at that moment. */
  datatype Failure = Failure(transport: nat, err: Err, carried: set<nat>)

  datatype Config = Config(maxAttempts: int, onlyNoSideEffects: bool)

  datatype State = State(
    cfg: Config,
    queue: seq<Entry>,
    refs: map<nat, nat>,
    transports: seq<Transport>,
    current: Option<nat>,
    pending: seq<Claim>,
    pass: Option<nat>,           // the transport of the submit pass that is under way
    passEnd: nat,                // the pass takes entries numbered below this
    writing: Option<Writing>,
    capacity: Tracker,
    reserved: seq<Input>,
    attempt: nat,
    lastAck: Option<Ack>,
    closing: bool, closed: bool, cancelled: bool, closeDone: bool,
    // history
    accepted: seq<Input>,
    resolutions: seq<Resolution>,
    failures: seq<Failure>,
    sinceAck: nat,
    late: set<Writing>)      // writes signalled on a transport that was `RetiredUncleanly`

  /** The entry that the pump has marked and is about to write. */
  datatype Writing = Writing(id: nat, transport: nat)

  datatype Write = Written | FailedBefore(err: Err) | FailedAfter(err: Err)

  datatype Action =
    | Reserve(input: Input)
    | Enqueue(k: nat)
    | Open(failure: Option<Err>)
    | BeginPass
    | Mark
    | FinishWrite(write: Write)
    | EndPass
    | AckArrives(transport: nat, ack: Option<Ack>)
    | Advise(transport: nat)
    | AnswerAdvice(transport: nat, accept: bool)
    | EndCleanly(transport: nat)
    | TransportFails(transport: nat, err: Err)
    | TransportCloses(transport: nat)
    | TimeOut
    | Resolve
    | CancelContext
    | PumpStops
    | CloseStarts
    | PumpDrains
    | CloseEnds

  function Init(cfg: Config, maxBytes: nat, maxItems: nat): State {
    State(cfg, [], map[], [], None, [], None, 0, None, Tracker(maxBytes, maxItems, 0, 0, false), [], 0, None,
          false, false, false, false, [], [], [], 0, {})
  }

  // ---- helpers ----

  function MaxAttempts(s: State): (n: nat)
    ensures n >= 1
  {
    if s.cfg.maxAttempts < 1 then 1 else s.cfg.maxAttempts
  }

  predicate IsTransport(s: State, t: nat) { t < |s.transports| }

  function CloseSome(ts: seq<Transport>, doomed: set<nat>): (r: seq<Transport>)
    ensures |r| == |ts|
  {
    seq(|ts|, i requires 0 <= i < |ts| => if i in doomed then ts[i].(isOpen := false) else ts[i])
  }

  /** `closeSessionIfUnused` */
  function CloseIfUnused(s: State, t: nat): State {
    if IsTransport(s, t) && t !in s.refs then s.(transports := CloseSome(s.transports, {t})) else s
  }

  function FirstUnsent(q: seq<Entry>, t: nat): (i: nat)
    ensures i <= |q|
    ensures forall j | 0 <= j < i :: t in q[j].sentOn
    ensures i < |q| ==> t !in q[i].sentOn
  {
    if q == [] || t !in q[0].sentOn then 0 else 1 + FirstUnsent(q[1..], t)
  }

  predicate HasUnacked(q: seq<Entry>, t: nat) {
    exists i | 0 <= i < |q| :: t in q[i].sentOn
  }

  predicate HasSentUnconditionalBehindHead(q: seq<Entry>) {
    exists i | 1 <= i < |q| :: !q[i].input.conditional && q[i].sentOn != []
  }

  function Carried(q: seq<Entry>, t: nat): set<nat> {
    set i | 0 <= i < |q| && t in q[i].sentOn :: q[i].id
  }

  function MarkUncertain(q: seq<Entry>, t: nat): (r: seq<Entry>)
    ensures |r| == |q|
  {
    seq(|q|, i requires 0 <= i < |q| => if t in q[i].sentOn then q[i].(priorUncertainty := true) else q[i])
  }

  function ResetStarts(q: seq<Entry>): (r: seq<Entry>)
    ensures |r| == |q|
  {
    seq(|q|, i requires 0 <= i < |q| => q[i].(started := false))
  }

  function Bytes(q: seq<Entry>): (r: seq<int>)
    ensures |r| == |q|
  {
    seq(|q|, i requires 0 <= i < |q| => q[i].input.bytes)
  }

  function InputBytes(q: seq<Input>): (r: seq<int>)
    ensures |r| == |q|
  {
    seq(|q|, i requires 0 <= i < |q| => q[i].bytes)
  }

  function FailEach(q: seq<Entry>, err: Err): (r: seq<Resolution>)
    ensures |r| == |q|
  {
    seq(|q|, i requires 0 <= i < |q| =>
      Resolution(q[i].id, Failed(err, WithPriorUncertainty(err, q[i].priorUncertainty))))
  }

  function Referenced(s: State): set<nat> {
    s.refs.Keys + (if s.current.Some? then {s.current.value} else {})
  }

  /** `failAllInflight` */
  function FailAll(s: State, err: Err): State {
    s.(queue := [],
       refs := map[],
       transports := CloseSome(s.transports, Referenced(s)),
       capacity := ReleaseAll(s.capacity, Bytes(s.queue)).(closed := true),
       closing := true, closed := true, cancelled := true, closeDone := true,
       resolutions := s.resolutions + FailEach(s.queue, err))
  }

  /** Clear the current transport for `cause`, with `claims` left to resolve. */
  function RetireCurrent(s: State, cause: Cause, claims: seq<Claim>): State
    requires s.current.Some? && IsTransport(s, s.current.value)
  {
    var t := s.current.value;
    var tr := s.transports[t];
    CloseIfUnused(
      s.(current := None, pending := s.pending + claims,
         transports := s.transports[t := tr.(retirements := tr.retirements + [cause])]), t)
  }

  /** Retire the current transport and count the failure as claimed. */
  function ClaimCurrent(s: State, cause: Cause): State
    requires s.current.Some? && IsTransport(s, s.current.value) && !cause.MovedOnAdvice?
  {
    RetireCurrent(s, cause, [Claim(s.current.value, cause.err)])
  }

  /** `handleSessionError` */
  function SessionError(s: State, t: nat, err: Err): State {
    if s.closed || !IsTransport(s, t) then s
    else if s.current == Some(t) then ClaimCurrent(s, FailedWith(err))
    else CloseIfUnused(s, t)
  }

  // ---- one function per action ----

  function DoReserve(s: State, input: Input): State {
    if input.bytes == 0 then s else
    var (r, c) := TryReserve(s.capacity, input.bytes, s.cancelled);
    if r == Reserved then s.(capacity := c, reserved := s.reserved + [input]) else s
  }

  /** `enqueueReservedEntry`, and the release of the reservation when it is refused. */
  function DoEnqueue(s: State, k: nat): State {
    if k >= |s.reserved| then s else
    var input := s.reserved[k];
    var rest := s.reserved[..k] + s.reserved[k + 1..];
    if s.closing then s.(reserved := rest, capacity := Release(s.capacity, input.bytes))
    else s.(reserved := rest,
            queue := s.queue + [Entry(|s.accepted|, input, false, [], false, [])],
            accepted := s.accepted + [input])
  }

  predicate CanOpen(s: State) {
    !s.cancelled && s.pass.None? && s.queue != [] && s.current.None? && s.pending == []
  }

  function DoOpen(s: State, failure: Option<Err>): State {
    if !CanOpen(s) then s
    else if failure.None? then
      s.(transports := s.transports + [Transport(true, 0, NoAdvice, [], 0, [])], current := Some(|s.transports|))
    else if IsRetryableErr(failure.value) then StartError(s, failure.value)
    else FailAll(s, failure.value)
  }

  /** `handleSessionStartError` */
  function StartError(s: State, err: Err): State {
    if s.attempt >= MaxAttempts(s) - 1 then FailAll(s.(sinceAck := s.sinceAck + 1), Exhausted(err))
    else s.(attempt := s.attempt + 1, sinceAck := s.sinceAck + 1)
  }

  predicate HoldsInputs(tr: Transport) { tr.advice.Advised? || tr.advice.Accepted? }

  /** A pass keeps to the transport that was current when it began, and to the entries then queued. */
  function DoBeginPass(s: State): State {
    if s.cancelled || s.pass.Some? || s.current.None? || !IsTransport(s, s.current.value) || HoldsInputs(s.transports[s.current.value]) then s
    else s.(pass := s.current, passEnd := |s.accepted|)
  }

  predicate CanMark(s: State) {
    && s.pass.Some? && s.writing.None? && IsTransport(s, s.pass.value)
    && FirstUnsent(s.queue, s.pass.value) < |s.queue| && s.queue[FirstUnsent(s.queue, s.pass.value)].id < s.passEnd
  }

  /** Mark the first entry not yet sent on `t`, and go on to write it. */
  function MarkSent(s: State, t: nat): State
    requires FirstUnsent(s.queue, t) < |s.queue|
  {
    var i := FirstUnsent(s.queue, t);
    var e := s.queue[i];
    s.(queue := s.queue[i := e.(sentOn := e.sentOn + [t], started := true)],
       refs := s.refs[t := (if t in s.refs then s.refs[t] else 0) + 1],
       writing := Some(Writing(e.id, t)))
  }

  function DoMark(s: State): State { if CanMark(s) then MarkSent(s, s.pass.value) else s }

  predicate FailedCleanly(tr: Transport) {
    && |tr.retirements| == 1
    && !tr.retirements[0].MovedOnAdvice?
    && IsNoSideEffectsError(tr.retirements[0].err)
  }

  /** The transport has been retired and nothing about it is left to judge: its failure was taken up, or
      it was given up on advice. Its failure, if any, was not free of side effects. */
  predicate RetiredUncleanly(s: State, t: nat)
    requires IsTransport(s, t)
  {
    s.current != Some(t) && !(s.pending != [] && s.pending[0].transport == t) && !FailedCleanly(s.transports[t])
  }

  function WrittenTo(q: seq<Entry>, w: Writing): (r: seq<Entry>)
    ensures |r| == |q|
  {
    seq(|q|, i requires 0 <= i < |q| => if q[i].id == w.id then q[i].(writtenOn := q[i].writtenOn + [w.transport]) else q[i])
  }

  /** `markWriteSignalled` and the write that follows. */
  function LogWrite(s: State): State
    requires s.writing.Some? && IsTransport(s, s.writing.value.transport)
  {
    var w := s.writing.value;
    var tr := s.transports[w.transport];
    s.(writing := None, queue := WrittenTo(s.queue, w),
       transports := s.transports[w.transport := tr.(pendingWrites := tr.pendingWrites + 1, written := tr.written + [w.id])],
       late := if RetiredUncleanly(s, w.transport) then s.late + {w} else s.late)
  }

  function StopPass(s: State): State { s.(pass := None, writing := None) }

  /** The rest of the turn: `appendInput`, and `handleSessionError` when it fails. */
  function DoFinishWrite(s: State, w: Write): State {
    if s.writing.None? || !IsTransport(s, s.writing.value.transport) then s else
    var t := s.writing.value.transport;
    match w
    case Written => if s.transports[t].isOpen then LogWrite(s) else s
    case FailedBefore(err) => if TransportErr(err) then SessionError(StopPass(s), t, err) else s
    case FailedAfter(err) => if TransportErr(err) then SessionError(StopPass(LogWrite(s)), t, err) else s
  }

  function DoEndPass(s: State): State { if s.writing.None? then s.(pass := None) else s }

  predicate ValidAck(s: State, e: Entry, ack: Option<Ack>) {
    && ack.Some?
    && ack.value.start <= ack.value.end
    && ack.value.end - ack.value.start == e.input.count
    && (s.lastAck.Some? ==> ack.value.end > s.lastAck.value.end)
  }

  predicate StaleAck(s: State, ack: Option<Ack>) {
    ack.Some? && s.lastAck.Some? && ack.value.end <= s.lastAck.value.end
  }

  function ReleaseRefs(refs: map<nat, nat>, sent: seq<nat>): map<nat, nat> {
    map t | t in refs && !(t in sent && refs[t] <= 1) :: if t in sent then refs[t] - 1 else refs[t]
  }

  /** Transports whose last reference goes with this entry, except the current one. */
  function LastReleased(refs: map<nat, nat>, current: Option<nat>, sent: seq<nat>): set<nat> {
    set t | t in refs && t in sent && refs[t] <= 1 && current != Some(t)
  }

  /** Resolve the head with `ack`, received on `t`. */
  function AcceptAck(s: State, t: nat, ack: Ack): State
    requires IsTransport(s, t) && s.queue != []
  {
    var e := s.queue[0];
    var tr := s.transports[t];
    var ts := s.transports[t := tr.(pendingWrites := if tr.pendingWrites > 0 then tr.pendingWrites - 1 else 0)];
    s.(queue := s.queue[1..],
       refs := ReleaseRefs(s.refs, e.sentOn),
       transports := CloseSome(ts, LastReleased(s.refs, s.current, e.sentOn)),
       lastAck := Some(ack), attempt := 0, sinceAck := 0,
       capacity := Release(s.capacity, e.input.bytes),
       resolutions := s.resolutions + [Resolution(e.id, Acked(ack))])
  }

  /** `handleAck` */
  function HandleAck(s: State, t: nat, ack: Option<Ack>): State
    requires IsTransport(s, t)
  {
    if s.queue == [] || t !in s.queue[0].sentOn || StaleAck(s, ack) then s
    else if !ValidAck(s, s.queue[0], ack) then FailAll(s, Plain("append ack invariant violated"))
    else AcceptAck(s, t, ack.value)
  }

  function CountAck(s: State, t: nat): State
    requires IsTransport(s, t)
  {
    s.(transports := s.transports[t := s.transports[t].(acks := s.transports[t].acks + 1)])
  }

  function DoAck(s: State, t: nat, ack: Option<Ack>): State {
    if !IsTransport(s, t) then s else HandleAck(CountAck(s, t), t, ack)
  }

  function SetAdvice(s: State, t: nat, from: Advice, to: Advice): State {
    if IsTransport(s, t) && s.transports[t].advice == from
    then s.(transports := s.transports[t := s.transports[t].(advice := to)]) else s
  }

  /** `handleReconnectAdvice`: the response ended cleanly after an accepted advice. */
  function DoEndCleanly(s: State, t: nat): State {
    if !IsTransport(s, t) || !s.transports[t].advice.Accepted? || s.closed then s
    else if HasUnacked(s.queue, t) then SessionError(s, t, Plain("append session ended before acknowledging all appends"))
    else if s.current == Some(t) then
      RetireCurrent(s, MovedOnAdvice, [])
    else CloseIfUnused(s, t)
  }

  const TIMEOUT_ERROR: Err := Api(S2Error(Unlisted("REQUEST_TIMEOUT"), 408, FromSdk))

  /** `checkTimeouts`, when the head's deadline has passed. */
  function DoTimeOut(s: State): State {
    if s.cancelled || s.closed || s.pass.Some? || s.queue == [] || !s.queue[0].started then s
    else if s.current.Some? && IsTransport(s, s.current.value) then ClaimCurrent(s, TimedOut(TIMEOUT_ERROR))
    else s
  }

  predicate CanRetryCleanly(s: State, c: Claim) {
    IsNoSideEffectsError(c.err) || (IsTransport(s, c.transport) && s.transports[c.transport].pendingWrites == 0)
  }

  function RecordFailure(s: State, c: Claim): State {
    s.(failures := s.failures + [Failure(c.transport, c.err, Carried(s.queue, c.transport))])
  }

  /** `extra` is 1 when the failure is charged to the retry budget. */
  datatype Verdict = Retry(extra: nat) | GiveUp(err: Err, extra: nat)

  /** The decision part of `handleClaimedSessionError`. */
  function Judge(s: State, c: Claim): Verdict {
    if IsServerDraining(c.err) then Retry(0)
    else if s.cfg.onlyNoSideEffects && (!CanRetryCleanly(s, c) || HasSentUnconditionalBehindHead(s.queue)) then GiveUp(c.err, 0)
    else if AsS2(c.err).Some? && !IsRetryable(AsS2(c.err).value) then GiveUp(c.err, 0)
    else if s.attempt >= MaxAttempts(s) - 1 then GiveUp(Exhausted(c.err), 1)
    else Retry(1)
  }

  /** `markInflightUncertainty`; a drain notice skips it. */
  function AfterFailure(q: seq<Entry>, c: Claim): (r: seq<Entry>)
    ensures |r| == |q|
  {
    ResetStarts(if IsServerDraining(c.err) || IsNoSideEffectsError(c.err) then q else MarkUncertain(q, c.transport))
  }

  /** `handleClaimedSessionError` */
  function ResolveClaim(s: State, c: Claim): State {
    match Judge(s, c)
    case GiveUp(err, extra) => FailAll(s.(sinceAck := s.sinceAck + extra), err)
    case Retry(extra) =>
      RecordFailure(s, c).(queue := AfterFailure(s.queue, c), attempt := s.attempt + extra, sinceAck := s.sinceAck + extra)
  }

  function DoResolve(s: State): State {
    if s.pending == [] then s else ResolveClaim(s.(pending := s.pending[1..]), s.pending[0])
  }

  /** The final part of `Close`, after the pump has gone. */
  function DoCloseEnds(s: State): State {
    if !s.closeDone then s else
    s.(closed := true, cancelled := true, queue := [], refs := map[],
       transports := CloseSome(s.transports, Referenced(s)),
       capacity := ReleaseAll(s.capacity, Bytes(s.queue)),
       resolutions := s.resolutions + FailEach(s.queue, SessionClosed))
  }

  function Step(s: State, a: Action): State {
    match a
    case Reserve(input) => DoReserve(s, input)
    case Enqueue(k) => DoEnqueue(s, k)
    case Open(failure) => DoOpen(s, failure)
    case BeginPass => DoBeginPass(s)
    case Mark => DoMark(s)
    case FinishWrite(w) => DoFinishWrite(s, w)
    case EndPass => DoEndPass(s)
    case AckArrives(t, ack) => DoAck(s, t, ack)
    case Advise(t) => SetAdvice(s, t, NoAdvice, Advised)
    case AnswerAdvice(t, accept) => SetAdvice(s, t, Advised, if accept then Accepted else Declined)
    case EndCleanly(t) => DoEndCleanly(s, t)
    case TransportFails(t, err) => if TransportErr(err) then SessionError(s, t, err) else s
    case TransportCloses(t) => s.(transports := CloseSome(s.transports, {t}))
    case TimeOut => DoTimeOut(s)
    case Resolve => DoResolve(s)
    case CancelContext => s.(cancelled := true)
    case PumpStops => if s.cancelled && s.pass.None? then FailAll(s, SessionClosed) else s
    case CloseStarts => s.(closing := true, capacity := s.capacity.(closed := true))
    case PumpDrains => if s.closing && s.queue == [] && s.pass.None? then s.(closeDone := true) else s
    case CloseEnds => DoCloseEnds(s)
  }

  /** The state after a list of actions. */
  function Run(s: State, actions: seq<Action>): State
    decreases |actions|
  {
    if actions == [] then s else Step(Run(s, actions[..|actions| - 1]), actions[|actions| - 1])
  }
}
