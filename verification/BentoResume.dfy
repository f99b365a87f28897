/** Where sessions of the Bento input begin and how acks move the cached position: exact laws over every
    reachable state, and when the position can go back. */
module BentoResume {
  import opened Options
  import opened AckTracking
  import opened BentoInput

  /** `s` is a state that an input with the given settings can get into. */
  ghost predicate Reachable(s: State) {
    exists latest, hasDurable, durable, actions :: s == RunFrom(Init(latest, hasDurable, durable), actions)
  }

  lemma ReachableInv(s: State)
    requires Reachable(s)
    ensures Inv(s)
  {
    hide RunFrom, Inv;
    var latest, hasDurable, durable, actions :| s == RunFrom(Init(latest, hasDurable, durable), actions);
    Reaches(latest, hasDurable, durable, actions);
  }

  /** The cached position: in memory, else in the durable cache. */
  function Cached(s: State): Option<nat> {
    if s.cache.mem.Some? then s.cache.mem else s.cache.durable
  }

  function DefaultStart(s: State, tail: nat): nat { if s.latest then tail else 0 }

  // ---- where a session begins ----

  /** The new session begins at `p`, with nothing delivered, and the others are as they were. */
  ghost predicate OpenedAt(s: State, t: State, p: nat) {
    && |t.sessions| == |s.sessions| + 1 && t.sessions[..|s.sessions|] == s.sessions
    && var x := t.sessions[|s.sessions|];
       && x.next == x.swept == p && x.entries == [] && x.tickets == [] && x.nacks == []
       && x.gen == s.cache.gen == t.cache.gen
  }

  /** A session resumes exactly at the position in memory, or without one at the durable position if the
      durable cache answers, which memory then holds; otherwise it begins at the default start. */
  lemma ConnectResumes(s: State, tail: nat, durableAnswers: bool)
    requires Reachable(s)
    ensures var t := Step(s, Connect(tail, durableAnswers));
            && t.cache.durable == s.cache.durable && t.hasDurable == s.hasDurable
            && (match s.cache.mem
                case Some(p) => OpenedAt(s, t, p) && t.cache.mem == Some(p)
                case None =>
                  if durableAnswers && s.cache.durable.Some?
                  then OpenedAt(s, t, s.cache.durable.value) && t.cache.mem == s.cache.durable
                  else OpenedAt(s, t, DefaultStart(s, tail)) && t.cache.mem == None)
  {
  }

  /** So a session begins below the cached position exactly when memory has none, the durable cache does not
      answer, and the default start lies below. */
  lemma StartsBelowIff(s: State, tail: nat, durableAnswers: bool)
    requires Reachable(s) && Cached(s).Some?
    ensures var t := Step(s, Connect(tail, durableAnswers));
            && |t.sessions| == |s.sessions| + 1
            && (t.sessions[|s.sessions|].next < Cached(s).value <==>
                  s.cache.mem.None? && !durableAnswers && DefaultStart(s, tail) < Cached(s).value)
  {
    ConnectResumes(s, tail, durableAnswers);
  }

  ghost predicate OnlyForgets(actions: seq<Action>) {
    forall i | 0 <= i < |actions| :: actions[i].Forget? || actions[i].RestartProcess?
  }

  /** Forgetting and restarting lose nothing that is durable. */
  lemma {:induction false} PositionSurvives(s: State, gone: seq<Action>)
    requires OnlyForgets(gone)
    ensures var u := RunFrom(s, gone);
            && u.cache.durable == s.cache.durable && u.hasDurable == s.hasDurable
            && u.cache.mem == (if gone == [] then s.cache.mem else None)
    decreases |gone|
  {
    if gone != [] { PositionSurvives(s, gone[..|gone| - 1]); }
  }

  lemma {:induction false} RunTwice(s: State, a: seq<Action>, b: seq<Action>)
    ensures RunFrom(RunFrom(s, a), b) == RunFrom(s, a + b)
    decreases |b|
  {
    hide Step;
    if b == [] {
      assert a + b == a;
    } else {
      RunTwice(s, a, b[..|b| - 1]);
      assert (a + b)[..|a + b| - 1] == a + b[..|b| - 1];
    }
  }

  lemma ReachesMore(s: State, more: seq<Action>)
    requires Reachable(s)
    ensures Reachable(RunFrom(s, more))
  {
    hide RunFrom;
    var latest, hasDurable, durable, actions :| s == RunFrom(Init(latest, hasDurable, durable), actions);
    RunTwice(Init(latest, hasDurable, durable), actions, more);
  }

  /** A position that is in memory and, with a durable cache, durable is where the next session begins, after
      any forgetting and restarting while the durable cache answers. */
  lemma ResumesThere(s: State, gone: seq<Action>, tail: nat, p: nat)
    requires Reachable(s) && OnlyForgets(gone) && s.cache.mem == Some(p)
    requires s.cache.durable == Some(p) || gone == []
    ensures var u := RunFrom(s, gone); OpenedAt(u, Step(u, Connect(tail, true)), p)
  {
    hide RunFrom, Reachable;
    PositionSurvives(s, gone);
    ReachesMore(s, gone);
    if gone == [] { RunOfNothing(s); }
    ConnectResumes(RunFrom(s, gone), tail, true);
  }

  lemma RunOfNothing(s: State)
    ensures RunFrom(s, []) == s
  {
  }

  lemma OneMore(s: State, a: Action)
    requires Reachable(s)
    ensures Reachable(Step(s, a))
  {
    hide Step;
    ReachesMore(s, [a]);
    assert [a][..0] == [];
    assert RunFrom(s, [a][..0]) == s;
  }

  /** The round trip: once everything a session delivered is acknowledged, the next session begins exactly
      where it stopped, whatever is forgotten or restarted in between. */
  lemma ResumesWhereAcked(latest: bool, hasDurable: bool, durable: Option<nat>, actions: seq<Action>, k: nat, t: nat,
                          gone: seq<Action>, tail: nat)
    requires var s := RunFrom(Init(latest, hasDurable, durable), actions);
             && k < |s.sessions| && t < |s.sessions[k].tickets| && !s.sessions[k].tickets[t].used && s.sessions[k].gen == s.cache.gen
             && forall i | 0 <= i < |s.sessions[k].entries| ::
                  s.sessions[k].entries[i].acked || s.sessions[k].entries[i].first == s.sessions[k].tickets[t].range.first
    requires OnlyForgets(gone) && (hasDurable || gone == [])
    ensures var s := RunFrom(Init(latest, hasDurable, durable), actions);
            var u := RunFrom(Step(s, Ack(k, t, true)), gone);
            OpenedAt(u, Step(u, Connect(tail, true)), s.sessions[k].next)
  {
    hide RunFrom, DoAck, OpenedAt, DoConnect;
    var s := RunFrom(Init(latest, hasDurable, durable), actions);
    LastAckSweepsAll(latest, hasDurable, durable, actions, k, t);
    assert Reachable(s);
    OneMore(s, Ack(k, t, true));
    ResumesThere(Step(s, Ack(k, t, true)), gone, tail, s.sessions[k].next);
  }

  /** A reset to the tail decides where the next session begins. */
  lemma ResumesAtReset(s: State, newTail: nat, gone: seq<Action>, tail: nat)
    requires Reachable(s) && OnlyForgets(gone) && (s.hasDurable || gone == [])
    ensures var u := RunFrom(Step(s, ResetToTail(newTail)), gone);
            OpenedAt(u, Step(u, Connect(tail, true)), newTail)
  {
    hide RunFrom, Reachable, OpenedAt, DoConnect;
    OneMore(s, ResetToTail(newTail));
    ResumesThere(Step(s, ResetToTail(newTail)), gone, tail, newTail);
  }

  // ---- where an ack moves the position ----

  /** `q` is the first record that the session has delivered and nobody acknowledged, counting the batch
      `r` as acknowledged; or the end of what it delivered. */
  ghost predicate FirstOpen(x: Session, r: Range, q: nat) {
    && x.swept <= q <= x.next
    && (forall i | 0 <= i < |x.entries| && x.entries[i].first < q :: x.entries[i].acked || x.entries[i].first == r.first)
    && (q < x.next ==> exists i :: 0 <= i < |x.entries| && x.entries[i].first == q && !x.entries[i].acked && q != r.first)
  }

  /** What an ack of a batch does to the position and the session: nothing while a batch before it is open;
      otherwise the position moves to the first open record, unless the session is from before a reset.
      A durable write that fails leaves the batches tracked. */
  ghost predicate MovedTo(s: State, u: State, k: nat, q: nat, durableWrites: bool)
    requires k < |s.sessions|
  {
    var x := s.sessions[k];
    && |u.sessions| == |s.sessions| && u.cache.gen == s.cache.gen
    && (q == x.swept || x.gen < s.cache.gen ==> u.cache == s.cache)
    && (q > x.swept && x.gen >= s.cache.gen ==>
          && u.cache.mem == Some(q)
          && u.cache.durable == if s.hasDurable && durableWrites then Some(q) else s.cache.durable)
    && u.sessions[k].swept == (if x.gen >= s.cache.gen && s.hasDurable && !durableWrites then x.swept else q)
  }

  lemma AckMoves(s: State, k: nat, t: nat, durableWrites: bool) returns (q: nat)
    requires Reachable(s) && k < |s.sessions| && t < |s.sessions[k].tickets| && !s.sessions[k].tickets[t].used
    ensures FirstOpen(s.sessions[k], s.sessions[k].tickets[t].range, q)
    ensures MovedTo(s, Step(s, Ack(k, t, durableWrites)), k, q, durableWrites)
  {
    hide Inv, Reachable, SessionWell, Mark, AckedPrefix, FirstOpen, ScanEnd, DoAck, MovedTo;
    ReachableInv(s);
    SessionIs(s, k);
    var x := s.sessions[k];
    var es := Frontier(x, t, s.past.acked);
    q := ScanEnd(es, x.swept);
    AckIs(s, k, t, durableWrites, es);
  }

  lemma AckIs(s: State, k: nat, t: nat, durableWrites: bool, es: seq<Entry>)
    requires k < |s.sessions| && t < |s.sessions[k].tickets| && !s.sessions[k].tickets[t].used
    requires Mark(s.sessions[k].entries, s.sessions[k].tickets[t].range.first) == Some(es)
    requires AckedPrefix(es) > 0 ==> ScanEnd(es, s.sessions[k].swept) > s.sessions[k].swept
    ensures MovedTo(s, DoAck(s, k, t, durableWrites), k, ScanEnd(es, s.sessions[k].swept), durableWrites)
  {
    hide Mark, AckedPrefix, Acknowledged;
  }

  function ScanEnd(es: seq<Entry>, lo: nat): nat {
    if AckedPrefix(es) == 0 then lo else es[AckedPrefix(es) - 1].last + 1
  }

  /** The scan ends at the first batch that is not acknowledged. */
  lemma ScanEnds(es: seq<Entry>, lo: nat, hi: nat)
    requires Chain(es, lo, hi)
    ensures var q := ScanEnd(es, lo);
            && lo <= q <= hi && (AckedPrefix(es) > 0 ==> lo < q)
            && (forall j | 0 <= j < |es| && es[j].first < q :: es[j].acked)
            && (q < hi ==> AckedPrefix(es) < |es| && es[AckedPrefix(es)].first == q && !es[AckedPrefix(es)].acked)
  {
    var n := AckedPrefix(es);
    PrefixAcked(es, 0);
    PrefixMaximal(es, lo, hi, 0);
    hide AckedPrefix, PrefixFrom;
    if n > 0 { ChainBounds(es, lo, hi, n - 1); }
    forall j | n <= j < |es| ensures es[j].first >= ScanEnd(es, lo) {
      if n > 0 { ChainOrdered(es, lo, hi, n - 1, j); } else { ChainBounds(es, lo, hi, j); }
    }
  }

  lemma Frontier(x: Session, t: nat, acked: set<(nat, nat)>) returns (es: seq<Entry>)
    requires SessionWell(x, acked) && t < |x.tickets| && !x.tickets[t].used
    ensures Mark(x.entries, x.tickets[t].range.first) == Some(es)
    ensures FirstOpen(x, x.tickets[t].range, ScanEnd(es, x.swept)) && (AckedPrefix(es) > 0 ==> ScanEnd(es, x.swept) > x.swept)
  {
    hide Mark, Chain, AllOpen, OneAnswer, EntriesAcked, NoneForgotten, AckedPrefix, ScanEnd;
    var i := MarkFinds(x, t, acked);
    es := x.entries[i := x.entries[i].(acked := true)];
    ScanEnds(es, x.swept, x.next);
    var n := AckedPrefix(es);
    if n < |es| && n != i { FirstsDiffer(x.entries, x.swept, x.next, n, i); }
    var q := ScanEnd(es, x.swept);
    forall j | 0 <= j < |x.entries| && x.entries[j].first < q ensures x.entries[j].acked || x.entries[j].first == x.tickets[t].range.first {
      assert es[j].acked;
    }
    if q < x.next { assert x.entries[n].first == q && !x.entries[n].acked; }
  }

  // ---- when the position goes back ----

  /** An ack moves the position back exactly when its session is of the current generation, no batch before
      it is open, and the first open record of its session lies below the position. */
  lemma AckGoesBackIff(s: State, k: nat, t: nat, durableWrites: bool, q: nat)
    requires Reachable(s) && k < |s.sessions| && t < |s.sessions[k].tickets| && !s.sessions[k].tickets[t].used
    requires Cached(s).Some? && FirstOpen(s.sessions[k], s.sessions[k].tickets[t].range, q)
    ensures var u := Step(s, Ack(k, t, durableWrites));
            && Cached(u).Some?
            && (Cached(u).value < Cached(s).value <==>
                  s.sessions[k].gen == s.cache.gen && s.sessions[k].swept < q < Cached(s).value)
  {
    hide Reachable, MovedTo;
    var q' := AckMoves(s, k, t, durableWrites);
    ReachableInv(s);
    SessionIs(s, k);
    hide Inv, SessionWell;
    OneFrontier(s.sessions[k], s.sessions[k].tickets[t].range, q, q');
    MovedBack(s, Step(s, Ack(k, t, durableWrites)), k, q, durableWrites);
  }

  lemma MovedBack(s: State, u: State, k: nat, q: nat, durableWrites: bool)
    requires k < |s.sessions| && MovedTo(s, u, k, q, durableWrites) && Cached(s).Some? && s.sessions[k].gen <= s.cache.gen && s.sessions[k].swept <= q
    ensures Cached(u).Some?
    ensures Cached(u).value < Cached(s).value <==> s.sessions[k].gen == s.cache.gen && s.sessions[k].swept < q < Cached(s).value
  {
  }

  lemma OneFrontier(x: Session, r: Range, p: nat, q: nat)
    requires FirstOpen(x, r, p) && FirstOpen(x, r, q)
    ensures p == q
  {
  }

  /** A session that began at 0 and delivered one batch, not answered. */
  function Delivered(count: nat): Session
    requires count > 0
  {
    Session(0, [Entry(0, count - 1, false)], [], [Ticket(Range(0, count - 1), false)], 0, 0, count, [])
  }

  function TwoSessions(): State {
    State(false, true, Position(None, None, 0), [Delivered(10), Delivered(20)], Past(0, Some(0), {}, {}))
  }

  lemma TwoDeliver()
    ensures var a := [Connect(0, true), Read(0, 10), Connect(0, true), Read(1, 20)];
            RunFrom(Init(false, true, None), a) == TwoSessions()
  {
    var s0 := Init(false, true, None);
    var a := [Connect(0, true), Read(0, 10), Connect(0, true), Read(1, 20)];
    assert a[..0] == [] && a[..3][..2] == a[..2] && a[..2][..1] == a[..1] && a[..1][..0] == [];
    var s1 := Step(s0, a[0]);
    assert s1 == RunFrom(s0, a[..1]);
    var s2 := Step(s1, a[1]);
    assert s2 == RunFrom(s0, a[..2]);
    FirstRead(Session(0, [], [], [], 0, 0, 0, []), 10);
    FirstRead(Session(0, [], [], [], 0, 0, 0, []), 20);
    assert s2.sessions == [Delivered(10)];
    var s3 := Step(s2, a[2]);
    assert s3 == RunFrom(s0, a[..3]);
    assert Step(s3, a[3]).sessions == [Delivered(10), Delivered(20)];
  }

  lemma FirstRead(x: Session, count: nat)
    requires x == Session(0, [], [], [], 0, 0, 0, []) && count > 0
    ensures ReadBatch(x, count) == Delivered(count)
  {
  }

  /** An ack of the only batch of such a session moves the position to its end, wherever it was. */
  lemma AckAlone(s: State, k: nat, count: nat)
    requires k < |s.sessions| && count > 0 && s.sessions[k] == Delivered(count) && s.hasDurable && s.cache.gen == 0
    ensures var t := Step(s, Ack(k, 0, true));
            && t.cache == Position(Some(count), Some(count), 0) && t.hasDurable
            && |t.sessions| == |s.sessions| && (forall j | 0 <= j < |s.sessions| && j != k :: t.sessions[j] == s.sessions[j])
            && t.past.acked == s.past.acked + set n | 0 <= n <= count - 1 :: (0, n)
  {
    hide Mark, AckedPrefix;
    MarkAlone(0, count - 1);
    assert Spend(s.sessions[k], 0).entries == [Entry(0, count - 1, false)];
  }

  /** It happens: a session is replaced while a batch of its own is unanswered, its successor delivers and
      acknowledges that batch and more, and the late ack of the old session then moves the position back.
      The next session delivers again what was acknowledged. */
  lemma LateAckGoesBack()
    ensures var before := [Connect(0, true), Read(0, 10), Connect(0, true), Read(1, 20)] + [Ack(1, 0, true)];
            var s := RunFrom(Init(false, true, None), before);
            var t := RunFrom(Init(false, true, None), before + [Ack(0, 0, true)]);
            && s.cache.mem == s.cache.durable == Some(20) && t.cache.mem == t.cache.durable == Some(10)
            && OpenedAt(t, Step(t, Connect(0, true)), 10)
            && forall n | 0 <= n < 20 :: (0, n) in s.past.acked
  {
    hide Step, OpenedAt, TwoSessions;
    var init := Init(false, true, None);
    var a := [Connect(0, true), Read(0, 10), Connect(0, true), Read(1, 20)];
    var b := a + [Ack(1, 0, true)];
    assert b[..4] == a && (b + [Ack(0, 0, true)])[..5] == b;
    TwoDeliver();
    TwoAre();
    var s := RunFrom(init, b);
    AckAlone(TwoSessions(), 1, 20);
    AckAlone(s, 0, 10);
    var t := RunFrom(init, b + [Ack(0, 0, true)]);
    assert t == RunFrom(Init(false, true, None), b + [Ack(0, 0, true)]);
    assert Reachable(t);
    ConnectResumes(t, 0, true);
  }

  lemma TwoAre()
    ensures TwoSessions().sessions == [Delivered(10), Delivered(20)] && TwoSessions().hasDurable && TwoSessions().cache.gen == 0
    ensures TwoSessions().past.acked == {}
  {
  }

  /** The newest session alone acknowledges, every durable read and write works, nothing is forgotten that
      is not durable, and the tail is not reset. */
  predicate Orderly(s: State, a: Action) {
    match a
    case Ack(k, _, durableWrites) => k == |s.sessions| - 1 && durableWrites
    case Connect(_, durableAnswers) => s.cache.mem.Some? || durableAnswers
    case ResetToTail(_) => false
    case Forget => s.hasDurable
    case RestartProcess => s.hasDurable
    case _ => true
  }

  ghost predicate OrderlyRun(s: State, actions: seq<Action>) {
    forall i | 0 <= i < |actions| :: Orderly(RunFrom(s, actions[..i]), actions[i])
  }

  /** The newest session has swept up to the cached position. */
  ghost predicate Tip(s: State) {
    && (s.sessions != [] ==>
          var x := s.sessions[|s.sessions| - 1];
          x.gen == s.cache.gen && (Cached(s).Some? ==> Cached(s).value == x.swept))
    && (s.hasDurable && s.cache.mem.Some? ==> s.cache.durable == s.cache.mem)
  }

  ghost predicate NotBack(s: State, t: State) {
    Cached(s).Some? ==> Cached(t).Some? && Cached(s).value <= Cached(t).value
  }

  lemma AckAdvances(s: State, k: nat, t: nat)
    requires Reachable(s) && Tip(s) && Orderly(s, Ack(k, t, true))
    ensures Tip(Step(s, Ack(k, t, true))) && NotBack(s, Step(s, Ack(k, t, true)))
  {
    hide DoAck, Reachable, Inv, SessionWell, FirstOpen, MovedTo, Tip, NotBack;
    if t < |s.sessions[k].tickets| && !s.sessions[k].tickets[t].used {
      AckSettings(s, k, t);
      var q := AckMoves(s, k, t, true);
      ReachableInv(s);
      DurableKnown(s);
      FrontierAhead(s.sessions[k], s.sessions[k].tickets[t].range, q);
      TipMoves(s, DoAck(s, k, t, true), q);
    } else {
      SpentAck(s, k, t);
      NotBackFrom(s, s, s);
    }
  }

  lemma SpentAck(s: State, k: nat, t: nat)
    requires k >= |s.sessions| || t >= |s.sessions[k].tickets| || s.sessions[k].tickets[t].used
    ensures Step(s, Ack(k, t, true)) == s
  {
  }

  lemma DurableKnown(s: State)
    requires Inv(s)
    ensures !s.hasDurable ==> s.cache.durable.None?
  {
    hide SessionsAgree, CacheAgrees;
  }

  lemma FrontierAhead(x: Session, r: Range, q: nat)
    requires FirstOpen(x, r, q)
    ensures x.swept <= q
  {
  }

  lemma TipMoves(s: State, u: State, q: nat)
    requires s.sessions != [] && Tip(s) && MovedTo(s, u, |s.sessions| - 1, q, true) && s.sessions[|s.sessions| - 1].swept <= q
    requires u.hasDurable == s.hasDurable && u.sessions[|s.sessions| - 1].gen == s.sessions[|s.sessions| - 1].gen
    requires !s.hasDurable ==> s.cache.durable.None?
    ensures Tip(u) && NotBack(s, u)
  {
  }

  lemma AckSettings(s: State, k: nat, t: nat)
    requires k < |s.sessions|
    ensures var u := DoAck(s, k, t, true);
            u.hasDurable == s.hasDurable && |u.sessions| == |s.sessions| && u.sessions[k].gen == s.sessions[k].gen
  {
    hide Mark, AckedPrefix, Acknowledged;
  }

  lemma OrderlyStep(s: State, a: Action)
    requires Reachable(s) && Tip(s) && Orderly(s, a)
    ensures Tip(Step(s, a)) && NotBack(s, Step(s, a))
  {
    hide DoAck, Put, Reachable;
    match a
    case Ack(k, t, _) => AckAdvances(s, k, t);
    case Connect(tail, durableAnswers) => ConnectResumes(s, tail, durableAnswers);
    case _ =>
  }

  /** Then the position never goes back: at any two moments of such a run the later position is at least
      the earlier one. */
  lemma {:induction false} OrderlyPositionsAdvance(latest: bool, hasDurable: bool, durable: Option<nat>, actions: seq<Action>, i: nat)
    requires i <= |actions| && OrderlyRun(Init(latest, hasDurable, durable), actions)
    ensures var init := Init(latest, hasDurable, durable);
            NotBack(RunFrom(init, actions[..i]), RunFrom(init, actions)) && Tip(RunFrom(init, actions))
    decreases |actions|
  {
    hide Step, Orderly, Tip, Reachable, NotBack, Init;
    var init := Init(latest, hasDurable, durable);
    var s := RunFrom(init, actions);
    if actions == [] {
      NothingYet(latest, hasDurable, durable);
      assert actions[..i] == actions;
      NotBackFrom(s, s, s);
    } else {
      var n := |actions| - 1;
      var before := actions[..n];
      OrderlyPrefix(init, actions, n);
      OrderlyPositionsAdvance(latest, hasDurable, durable, before, if i < n then i else n);
      IsReachable(latest, hasDurable, durable, before);
      OrderlyStep(RunFrom(init, before), actions[n]);
      NotBackFrom(RunFrom(init, actions[..i]), RunFrom(init, before), s);
      assert actions[..i] == if i <= n then before[..i] else actions;
      assert before[..n] == before;
    }
  }

  lemma OrderlyPrefix(s: State, actions: seq<Action>, n: nat)
    requires OrderlyRun(s, actions) && n < |actions|
    ensures OrderlyRun(s, actions[..n]) && Orderly(RunFrom(s, actions[..n]), actions[n])
  {
    hide RunFrom, Orderly;
    assert forall j | 0 <= j < n :: actions[..n][..j] == actions[..j] && actions[..n][j] == actions[j];
  }

  /** And every session begins at or above every earlier position. */
  lemma OrderlySessionsAdvance(latest: bool, hasDurable: bool, durable: Option<nat>, before: seq<Action>, i: nat, tail: nat, durableAnswers: bool)
    requires i <= |before| && OrderlyRun(Init(latest, hasDurable, durable), before + [Connect(tail, durableAnswers)])
    requires Cached(RunFrom(Init(latest, hasDurable, durable), before[..i])).Some?
    ensures var init := Init(latest, hasDurable, durable);
            var t := Step(RunFrom(init, before), Connect(tail, durableAnswers));
            t.sessions != [] && t.sessions[|t.sessions| - 1].next >= Cached(RunFrom(init, before[..i])).value
  {
    hide Reachable, RunFrom, Init, Orderly;
    var init := Init(latest, hasDurable, durable);
    var actions := before + [Connect(tail, durableAnswers)];
    assert actions[..|before|] == before;
    OrderlyPrefix(init, actions, |before|);
    OrderlyPositionsAdvance(latest, hasDurable, durable, before, i);
    IsReachable(latest, hasDurable, durable, before);
    BeginsAtPosition(RunFrom(init, before), tail, durableAnswers);
  }

  lemma IsReachable(latest: bool, hasDurable: bool, durable: Option<nat>, actions: seq<Action>)
    ensures Reachable(RunFrom(Init(latest, hasDurable, durable), actions))
  {
  }

  lemma NotBackFrom(s: State, t: State, u: State)
    ensures NotBack(s, s) && (NotBack(s, t) && NotBack(t, u) ==> NotBack(s, u))
  {
  }

  lemma NothingYet(latest: bool, hasDurable: bool, durable: Option<nat>)
    ensures Tip(Init(latest, hasDurable, durable)) && RunFrom(Init(latest, hasDurable, durable), []) == Init(latest, hasDurable, durable)
  {
  }

  lemma BeginsAtPosition(s: State, tail: nat, durableAnswers: bool)
    requires Reachable(s) && Orderly(s, Connect(tail, durableAnswers))
    ensures var t := Step(s, Connect(tail, durableAnswers));
            t.sessions != [] && (Cached(s).Some? ==> t.sessions[|t.sessions| - 1].next == Cached(s).value)
  {
    ConnectResumes(s, tail, durableAnswers);
  }

  // ---- what a session delivers ----

  /** A read delivers the batch nacked first, and otherwise the next records of the stream, with a ticket
      that can be answered once. */
  lemma ReadDelivers(s: State, k: nat, count: nat)
    requires Reachable(s) && k < |s.sessions|
    ensures var x := s.sessions[k];
            var y := Step(s, Read(k, count)).sessions[k];
            if x.nacks == [] && count == 0 then y == x
            else
              && |y.tickets| == |x.tickets| + 1 && y.tickets[..|x.tickets|] == x.tickets && !y.tickets[|x.tickets|].used
              && (if x.nacks != []
                  then y.tickets[|x.tickets|].range == x.nacks[0] && y.nacks == x.nacks[1..] && y.next == x.next && y.entries == x.entries
                  else y.tickets[|x.tickets|].range == Range(x.next, x.next + count - 1) && y.nacks == [] && y.next == x.next + count
                       && y.entries == x.entries + [Entry(x.next, x.next + count - 1, false)])
  {
    hide Reachable, Inv, SessionWell, Put;
    ReachableInv(s);
    SessionIs(s, k);
    TrackedAfterRead(s.sessions[k], count, s.past.acked);
  }

  lemma TrackedAfterRead(x: Session, count: nat, acked: set<(nat, nat)>)
    requires SessionWell(x, acked)
    ensures ReadBatch(x, count).entries ==
              if x.nacks == [] && count > 0 then x.entries + [Entry(x.next, x.next + count - 1, false)] else x.entries
  {
    hide Put, NoneForgotten, EntriesAcked, OneAnswer, Open, Chain;
    if x.nacks != [] {
      var r := x.nacks[0];
      assert Open(x.entries, r);
      var i := OpenAt(x.entries, x.swept, x.next, r);
      ChainPutSame(x.entries, x.swept, x.next, i, Entry(r.first, r.last, false));
      assert x.entries[i := x.entries[i]] == x.entries;
    } else if count > 0 {
      ChainPutNew(x.entries, x.swept, x.next, Entry(x.next, x.next + count - 1, false));
    }
  }

  /** `count` reads of one session. */
  function Reads(k: nat, count: nat): (r: seq<Action>)
    ensures |r| == count
  {
    seq(count, i requires 0 <= i < count => Read(k, 0))
  }

  /** A nacked batch that could be queued is delivered again, after those nacked before it. */
  lemma NackedComesBack(s: State, k: nat, t: nat)
    requires Reachable(s) && k < |s.sessions| && t < |s.sessions[k].tickets| && !s.sessions[k].tickets[t].used
    ensures var u := Step(s, Nack(k, t, true));
            var n := |s.sessions[k].nacks|;
            var v := RunFrom(u, Reads(k, n + 1));
            && k < |v.sessions| && v.sessions[k].nacks == [] && v.cache == s.cache
            && |v.sessions[k].tickets| == |s.sessions[k].tickets| + n + 1
            && v.sessions[k].tickets[|s.sessions[k].tickets| + n] == Ticket(s.sessions[k].tickets[t].range, false)
  {
    var u := Step(s, Nack(k, t, true));
    var n := |s.sessions[k].nacks|;
    assert u.sessions[k].nacks == s.sessions[k].nacks + [s.sessions[k].tickets[t].range];
    ReadsDrain(u, k, n + 1);
    assert u.sessions[k].nacks[n + 1..] == [];
  }

  lemma {:induction false} ReadsDrain(s: State, k: nat, m: nat)
    requires k < |s.sessions| && m <= |s.sessions[k].nacks|
    ensures var v := RunFrom(s, Reads(k, m));
            && k < |v.sessions| && v.cache == s.cache && v.sessions[k].nacks == s.sessions[k].nacks[m..]
            && |v.sessions[k].tickets| == |s.sessions[k].tickets| + m
            && (m > 0 ==> v.sessions[k].tickets[|s.sessions[k].tickets| + m - 1] == Ticket(s.sessions[k].nacks[m - 1], false))
  {
    if m > 0 {
      ReadsDrain(s, k, m - 1);
      assert Reads(k, m)[..m - 1] == Reads(k, m - 1);
      var w := RunFrom(s, Reads(k, m - 1));
      assert w.sessions[k].nacks[0] == s.sessions[k].nacks[m - 1];
      hide Put;
    }
  }
}
