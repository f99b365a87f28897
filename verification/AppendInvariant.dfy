/** What every step of the append session keeps. */
module AppendInvariant {
  import opened Options
  import opened Errors
  import opened Capacity
  import opened AppendModel

  function SentLists(q: seq<Entry>): (r: seq<seq<nat>>)
    ensures |r| == |q|
  {
    seq(|q|, i requires 0 <= i < |q| => q[i].sentOn)
  }

  function WrittenLists(q: seq<Entry>): (r: seq<seq<nat>>)
    ensures |r| == |q|
  {
    seq(|q|, i requires 0 <= i < |q| => q[i].writtenOn)
  }

  /** How many of the lists mention `t`. */
  function Mentions(lists: seq<seq<nat>>, t: nat): nat {
    if lists == [] then 0 else (if t in lists[0] then 1 else 0) + Mentions(lists[1..], t)
  }

  ghost predicate NoRepeats(l: seq<nat>) {
    forall i, j | 0 <= i < j < |l| :: l[i] != l[j]
  }

  /** Some retried failure that may have taken effect found this entry listing its transport. */
  ghost predicate InDoubt(failures: seq<Failure>, id: nat) {
    exists i | 0 <= i < |failures| :: id in failures[i].carried && !IsNoSideEffectsError(failures[i].err)
  }

  // ---- the invariant, by concern ----

  /** Resolved entries and then the queue list every accepted entry exactly once, in enqueue order. */
  ghost predicate InOrder(accepted: seq<Input>, resolutions: seq<Resolution>, queue: seq<Entry>) {
    && |resolutions| + |queue| == |accepted|
    && (forall i | 0 <= i < |resolutions| :: resolutions[i].id == i)
    && (forall i | 0 <= i < |queue| :: queue[i].id == |resolutions| + i && queue[i].input == accepted[|resolutions| + i])
  }

  ghost predicate AckCovers(accepted: seq<Input>, r: Resolution, lastAck: Option<Ack>) {
    r.outcome.Acked? ==>
      && r.id < |accepted| && r.outcome.ack.end == r.outcome.ack.start + accepted[r.id].count
      && lastAck.Some? && r.outcome.ack.end <= lastAck.value.end
  }

  ghost predicate AcksIncrease(accepted: seq<Input>, resolutions: seq<Resolution>, lastAck: Option<Ack>) {
    && (forall i | 0 <= i < |resolutions| :: AckCovers(accepted, resolutions[i], lastAck))
    && (forall i, j | 0 <= i < j < |resolutions| && resolutions[i].outcome.Acked? && resolutions[j].outcome.Acked? ::
          resolutions[i].outcome.ack.end < resolutions[j].outcome.ack.end)
  }

  ghost predicate ClaimRecorded(transports: seq<Transport>, c: Claim) {
    && c.transport < |transports|
    && TransportErr(c.err)
    && transports[c.transport].retirements in {[FailedWith(c.err)], [TimedOut(c.err)]}
  }

  /** The current transport is not retired; every other one was retired exactly once. */
  ghost predicate RetiredOnce(transports: seq<Transport>, current: Option<nat>, pending: seq<Claim>) {
    && (current.Some? ==> current.value < |transports| && transports[current.value].retirements == [])
    && (forall t | 0 <= t < |transports| && current != Some(t) :: |transports[t].retirements| == 1)
    && |pending| <= 1
    && (pending != [] ==> current.None? && ClaimRecorded(transports, pending[0]))
  }

  /** The entries sent on a transport are a prefix of the queue. */
  ghost predicate SentPrefix(queue: seq<Entry>, n: nat) {
    && (forall i | 0 <= i < |queue| :: NoRepeats(queue[i].sentOn))
    && (forall i, t: nat | 0 <= i < |queue| && t in queue[i].sentOn :: t < n)
    && (forall i, j, t: nat | 0 <= i < j < |queue| && t in queue[j].sentOn :: t in queue[i].sentOn)
  }

  /** A written entry is marked sent; one marked but not written is the last of its transport's, and on
      the transport in use it is the one being written. */
  ghost predicate WrittenSent(queue: seq<Entry>, current: Option<nat>, pass: Option<nat>, writing: Option<Writing>) {
    && (forall i, t: nat | 0 <= i < |queue| && t in queue[i].writtenOn :: t in queue[i].sentOn)
    && (forall i, t: nat | 0 <= i < |queue| && t in queue[i].sentOn && t !in queue[i].writtenOn ::
          (current != Some(t) && pass != Some(t)) || writing == Some(Writing(queue[i].id, t)))
    && (forall i, j, t: nat | 0 <= i < j < |queue| && t in queue[j].sentOn :: t in queue[i].writtenOn)
  }

  /** A pass is on the transport in use, or on one that failed since it began. */
  ghost predicate PassWell(pass: Option<nat>, writing: Option<Writing>, current: Option<nat>, pending: seq<Claim>, n: nat) {
    && (writing.Some? ==> pass == Some(writing.value.transport))
    && (pass.Some? ==> pass.value < n && (current == pass || (current.None? && (pending != [] ==> pending[0].transport == pass.value))))
  }

  /** The entry being written is marked, and was not written there before. */
  ghost predicate WritingWell(writing: Option<Writing>, accepted: nat, queue: seq<Entry>, logs: seq<seq<nat>>) {
    writing.Some? ==>
      && writing.value.id < accepted && writing.value.transport < |logs| && writing.value.id !in logs[writing.value.transport]
      && (forall i | 0 <= i < |queue| && queue[i].id == writing.value.id :: writing.value.transport in queue[i].sentOn)
  }

  /** Wherever else the entry was written failed cleanly, or the write was late. */
  ghost predicate WritingClean(writing: Option<Writing>, transports: seq<Transport>, late: set<Writing>) {
    writing.Some? ==>
      forall u | 0 <= u < |transports| && u != writing.value.transport && writing.value.id in transports[u].written ::
        FailedCleanly(transports[u]) || Writing(writing.value.id, u) in late
  }

  /** Late writes are on transports that were retired for good without failing cleanly. */
  ghost predicate LateWell(late: set<Writing>, transports: seq<Transport>) {
    forall w | w in late ::
      && w.transport < |transports| && w.id in transports[w.transport].written
      && |transports[w.transport].retirements| == 1 && !FailedCleanly(transports[w.transport])
  }

  function Logs(transports: seq<Transport>): (r: seq<seq<nat>>)
    ensures |r| == |transports|
  {
    seq(|transports|, i requires 0 <= i < |transports| => transports[i].written)
  }

  /** The transports' write logs agree with the entries' own records. */
  ghost predicate WritesLogged(accepted: nat, queue: seq<Entry>, logs: seq<seq<nat>>) {
    && (forall t, id: nat | 0 <= t < |logs| && id in logs[t] :: id < accepted)
    && (forall i, t | 0 <= i < |queue| && 0 <= t < |logs| :: t in queue[i].writtenOn <==> queue[i].id in logs[t])
  }

  ghost predicate RefsExact(queue: seq<Entry>, refs: map<nat, nat>) {
    && (forall t | t in refs :: refs[t] > 0)
    && (forall t: nat :: (if t in refs then refs[t] else 0) == Mentions(SentLists(queue), t))
  }

  ghost predicate UnusedClosed(transports: seq<Transport>, current: Option<nat>, refs: map<nat, nat>) {
    forall t | 0 <= t < |transports| && current != Some(t) && t !in refs :: !transports[t].isOpen
  }

  ghost predicate WritesCounted(queue: seq<Entry>, transports: seq<Transport>) {
    forall t | 0 <= t < |transports| :: Mentions(WrittenLists(queue), t) <= transports[t].pendingWrites
  }

  /** Every transport an unresolved entry was written on failed cleanly, unless it is the current
      one, its failure is still being resolved, the write was late, or, without the policy, the entry
      is in doubt. */
  ghost predicate EarlierFailedCleanly(policy: bool, queue: seq<Entry>, transports: seq<Transport>, current: Option<nat>, pending: seq<Claim>, late: set<Writing>) {
    forall i, t: nat | 0 <= i < |queue| && t in queue[i].writtenOn ::
      || current == Some(t)
      || (pending != [] && pending[0].transport == t)
      || (t < |transports| && FailedCleanly(transports[t]))
      || Writing(queue[i].id, t) in late
      || (!policy && queue[i].priorUncertainty)
  }

  ghost predicate DoubtTracked(accepted: nat, queue: seq<Entry>, resolutions: seq<Resolution>, failures: seq<Failure>) {
    && (forall i, id | 0 <= i < |failures| && id in failures[i].carried :: id < accepted)
    && (forall i | 0 <= i < |queue| :: queue[i].priorUncertainty <==> InDoubt(failures, queue[i].id))
    && (forall i | 0 <= i < |resolutions| && resolutions[i].outcome.Failed? ::
          resolutions[i].outcome.reported ==
            WithPriorUncertainty(resolutions[i].outcome.cause, InDoubt(failures, resolutions[i].id)))
  }

  ghost predicate CapacityExact(capacity: Tracker, queue: seq<Entry>, reserved: seq<Input>) {
    Holds(capacity, Bytes(queue) + InputBytes(reserved)) && WithinLimits(capacity)
  }

  ghost predicate BudgetKept(maxAttempts: nat, attempt: nat, sinceAck: nat, closed: bool, pending: seq<Claim>) {
    && attempt <= maxAttempts - 1
    && (sinceAck == attempt || (sinceAck == attempt + 1 && closed && pending == []))
  }

  ghost predicate FlagsAgree(queue: seq<Entry>, closing: bool, closed: bool, cancelled: bool, closeDone: bool) {
    && (closeDone ==> closing && queue == [])
    && (closed ==> closeDone && cancelled)
  }

  ghost predicate Inv(s: State) {
    && InOrder(s.accepted, s.resolutions, s.queue)
    && AcksIncrease(s.accepted, s.resolutions, s.lastAck)
    && RetiredOnce(s.transports, s.current, s.pending)
    && SentPrefix(s.queue, |s.transports|)
    && WrittenSent(s.queue, s.current, s.pass, s.writing)
    && PassWell(s.pass, s.writing, s.current, s.pending, |s.transports|)
    && WritingWell(s.writing, |s.accepted|, s.queue, Logs(s.transports))
    && LateWell(s.late, s.transports)
    && WritesLogged(|s.accepted|, s.queue, Logs(s.transports))
    && RefsExact(s.queue, s.refs)
    && UnusedClosed(s.transports, s.current, s.refs)
    && WritesCounted(s.queue, s.transports)
    && EarlierFailedCleanly(s.cfg.onlyNoSideEffects, s.queue, s.transports, s.current, s.pending, s.late)
    && (s.cfg.onlyNoSideEffects ==> WritingClean(s.writing, s.transports, s.late))
    && DoubtTracked(|s.accepted|, s.queue, s.resolutions, s.failures)
    && CapacityExact(s.capacity, s.queue, s.reserved)
    && BudgetKept(MaxAttempts(s), s.attempt, s.sinceAck, s.closed, s.pending)
    && FlagsAgree(s.queue, s.closing, s.closed, s.cancelled, s.closeDone)
  }

  // ---- counting mentions ----

  lemma {:induction false} MentionsSame(a: seq<seq<nat>>, b: seq<seq<nat>>, t: nat)
    requires |a| == |b| && forall i | 0 <= i < |a| :: t in a[i] <==> t in b[i]
    ensures Mentions(a, t) == Mentions(b, t)
  {
    if a != [] { MentionsSame(a[1..], b[1..], t); }
  }

  lemma {:induction false} MentionsZero(a: seq<seq<nat>>, t: nat)
    ensures Mentions(a, t) == 0 <==> forall i | 0 <= i < |a| :: t !in a[i]
  {
    if a != [] { MentionsZero(a[1..], t); }
  }

  lemma {:induction false} MentionsUpdate(a: seq<seq<nat>>, i: nat, l: seq<nat>, t: nat)
    requires i < |a|
    ensures Mentions(a[i := l], t) == Mentions(a, t) - (if t in a[i] then 1 else 0) + (if t in l then 1 else 0)
  {
    if i == 0 {
      assert a[i := l][1..] == a[1..];
    } else {
      MentionsUpdate(a[1..], i - 1, l, t);
      assert a[i := l][1..] == a[1..][i - 1 := l];
    }
  }

  lemma {:induction false} MentionsAppendEmpty(a: seq<seq<nat>>, t: nat)
    ensures Mentions(a + [[]], t) == Mentions(a, t)
  {
    if a == [] {
      assert Mentions([[]], t) == 0;
    } else {
      assert (a + [[]])[1..] == a[1..] + [[]];
      MentionsAppendEmpty(a[1..], t);
    }
  }

  /** The first entry not sent on `t` is the one behind those that were. */
  lemma {:induction false} FirstUnsentIs(q: seq<Entry>, t: nat, i: nat)
    requires i <= |q| && (forall j | 0 <= j < i :: t in q[j].sentOn) && (i < |q| ==> t !in q[i].sentOn)
    ensures FirstUnsent(q, t) == i
  {
    if i > 0 { FirstUnsentIs(q[1..], t, i - 1); }
  }
}
