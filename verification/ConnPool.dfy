/** Streaming sessions spread over pooled connections (s2/connpool.go).

    Releasing a session is an atomic decrement, then a load of the poisoned flag, then closing idle
    connections; poisoning removes the entry under the lock, then stores the flag, then closes idle
    connections. Each is an action, so every interleaving of both is a run.
 */
module ConnPool {
  import opened Options

  const MAX_SESSIONS: nat := 4

  datatype Stage = Pooled | Removed | Flagged | Poisoned

  datatype Entry = Entry(
    host: string, sessions: int, poisoned: bool,
    bodies: seq<bool>,       // one per session handed out; true once its release has run
    loads: nat,              // releases that saw zero and have still to load the flag
    closes: nat,             // releases that saw the flag and have still to close idle connections
    stage: Stage,            // how far poisoning has come
    // history
    idleClosed: bool)        // idle connections were closed with no session, and none began since

  datatype State = State(entries: seq<Entry>, hosts: map<string, seq<nat>>)

  datatype Action =
    | Checkout(host: string)
    | Release(entry: nat, body: nat)
    | LoadFlag(entry: nat)
    | ReleaseCloses(entry: nat)
    | Poison(host: string, entry: nat)
    | StoreFlag(entry: nat)
    | PoisonCloses(entry: nat)
    | CloseIdle(entry: nat)

  function Init(): State { State([], map[]) }

  function Slots(s: State, host: string): seq<nat> { if host in s.hosts then s.hosts[host] else [] }

  /** The first pooled entry with room, or the number of pooled entries. */
  function FirstFree(s: State, slots: seq<nat>): (i: nat)
    ensures i <= |slots|
    ensures forall j | 0 <= j < i && slots[j] < |s.entries| :: s.entries[slots[j]].sessions >= MAX_SESSIONS
    ensures i < |slots| ==> slots[i] < |s.entries| && s.entries[slots[i]].sessions < MAX_SESSIONS
  {
    if slots == [] then 0
    else if slots[0] < |s.entries| && s.entries[slots[0]].sessions < MAX_SESSIONS then 0
    else 1 + FirstFree(s, slots[1..])
  }

  function Begin(e: Entry): Entry {
    e.(sessions := e.sessions + 1, bodies := e.bodies + [false], idleClosed := false)
  }

  function NewEntry(host: string): Entry {
    Entry(host, 1, false, [false], 0, 0, Pooled, false)
  }

  function DoCheckout(s: State, host: string): State {
    var slots := Slots(s, host);
    var i := FirstFree(s, slots);
    if i < |slots| then s.(entries := s.entries[slots[i] := Begin(s.entries[slots[i]])])
    else State(s.entries + [NewEntry(host)], s.hosts[host := slots + [|s.entries|]])
  }

  /** The entry `Checkout` hands out. */
  function CheckedOut(s: State, host: string): nat {
    var slots := Slots(s, host);
    var i := FirstFree(s, slots);
    if i < |slots| then slots[i] else |s.entries|
  }

  function DoRelease(e: Entry, body: nat): Entry {
    if body >= |e.bodies| || e.bodies[body] then e
    else e.(bodies := e.bodies[body := true], sessions := e.sessions - 1, loads := if e.sessions == 1 then e.loads + 1 else e.loads)
  }

  function CloseIdleOn(e: Entry): Entry { e.(idleClosed := e.idleClosed || e.sessions == 0) }

  function DoLoad(e: Entry): Entry {
    if e.loads == 0 then e else e.(loads := e.loads - 1, closes := if e.poisoned then e.closes + 1 else e.closes)
  }

  function DoReleaseCloses(e: Entry): Entry {
    if e.closes == 0 then e else CloseIdleOn(e.(closes := e.closes - 1))
  }

  /** Filtering the target out of its host's entries, in order. */
  function Kept(slots: seq<nat>, target: nat): seq<nat> {
    if slots == [] then []
    else if slots[|slots| - 1] == target then Kept(slots[..|slots| - 1], target)
    else Kept(slots[..|slots| - 1], target) + [slots[|slots| - 1]]
  }

  function DoPoison(s: State, host: string, target: nat): State {
    var slots := Slots(s, host);
    if target < |s.entries| && target in slots then
      State(s.entries[target := s.entries[target].(stage := Removed)], s.hosts[host := Kept(slots, target)])
    else s.(hosts := s.hosts[host := Kept(slots, target)])
  }

  function DoStore(e: Entry): Entry { if e.stage.Removed? then e.(poisoned := true, stage := Flagged) else e }

  function DoPoisonCloses(e: Entry): Entry { if e.stage.Flagged? then CloseIdleOn(e.(stage := Poisoned)) else e }

  function OnEntry(s: State, k: nat, f: Entry -> Entry): State {
    if k < |s.entries| then s.(entries := s.entries[k := f(s.entries[k])]) else s
  }

  function Step(s: State, a: Action): State {
    match a
    case Checkout(host) => DoCheckout(s, host)
    case Release(k, body) => OnEntry(s, k, e => DoRelease(e, body))
    case LoadFlag(k) => OnEntry(s, k, DoLoad)
    case ReleaseCloses(k) => OnEntry(s, k, DoReleaseCloses)
    case Poison(host, k) => DoPoison(s, host, k)
    case StoreFlag(k) => OnEntry(s, k, DoStore)
    case PoisonCloses(k) => OnEntry(s, k, DoPoisonCloses)
    case CloseIdle(k) => OnEntry(s, k, CloseIdleOn)
  }

  // ---- invariants ----

  function Running(bodies: seq<bool>): nat {
    if bodies == [] then 0 else Running(bodies[1..]) + if bodies[0] then 0 else 1
  }

  /** A removed entry without sessions was closed idle, or someone is still on the way to do so. */
  ghost predicate ClosesInTheEnd(e: Entry) {
    !e.stage.Pooled? && e.sessions == 0 ==> e.idleClosed || e.stage.Removed? || e.stage.Flagged? || e.closes > 0 || e.loads > 0
  }

  ghost predicate EntryWell(e: Entry) {
    && e.sessions == Running(e.bodies) && e.sessions <= MAX_SESSIONS
    && (e.poisoned <==> e.stage.Flagged? || e.stage.Poisoned?)
    && ClosesInTheEnd(e)
  }

  /** A host's slice holds entries of that host that were not removed, each once. */
  ghost predicate SlotsWell(entries: seq<Entry>, host: string, slots: seq<nat>) {
    && (forall i | 0 <= i < |slots| :: slots[i] < |entries| && entries[slots[i]].host == host && entries[slots[i]].stage.Pooled?)
    && (forall i, j | 0 <= i < j < |slots| :: slots[i] != slots[j])
  }

  /** The pool lists each entry that was not removed. */
  ghost predicate PoolWell(entries: seq<Entry>, hosts: map<string, seq<nat>>) {
    && (forall h | h in hosts :: SlotsWell(entries, h, hosts[h]))
    && (forall k | 0 <= k < |entries| && entries[k].stage.Pooled? :: entries[k].host in hosts && k in hosts[entries[k].host])
  }

  ghost predicate Inv(s: State) {
    && (forall k | 0 <= k < |s.entries| :: EntryWell(s.entries[k]))
    && PoolWell(s.entries, s.hosts)
  }

  lemma {:induction false} RunningMore(bodies: seq<bool>)
    ensures Running(bodies + [false]) == Running(bodies) + 1
    decreases |bodies|
  {
    var b := bodies + [false];
    if bodies == [] {
      assert b[1..] == [];
    } else {
      assert b[1..] == bodies[1..] + [false];
      RunningMore(bodies[1..]);
    }
  }

  lemma {:induction false} RunningLess(bodies: seq<bool>, k: nat)
    requires k < |bodies| && !bodies[k]
    ensures Running(bodies[k := true]) == Running(bodies) - 1
    decreases |bodies|
  {
    if k == 0 {
      assert bodies[k := true][1..] == bodies[1..];
    } else {
      assert bodies[k := true][1..] == bodies[1..][k - 1 := true];
      RunningLess(bodies[1..], k - 1);
    }
  }

  lemma BeginWell(e: Entry)
    requires EntryWell(e) && e.sessions < MAX_SESSIONS && e.stage.Pooled?
    ensures EntryWell(Begin(e))
  {
    RunningMore(e.bodies);
  }

  lemma ReleaseWell(e: Entry, body: nat)
    requires EntryWell(e)
    ensures EntryWell(DoRelease(e, body))
  {
    if body < |e.bodies| && !e.bodies[body] { RunningLess(e.bodies, body); }
  }

  lemma FlagStepsWell(e: Entry)
    requires EntryWell(e)
    ensures EntryWell(DoLoad(e)) && EntryWell(DoReleaseCloses(e)) && EntryWell(DoStore(e)) && EntryWell(DoPoisonCloses(e)) && EntryWell(CloseIdleOn(e))
  {
  }

  lemma SameSlots(entries: seq<Entry>, k: nat, e: Entry, host: string, slots: seq<nat>)
    requires SlotsWell(entries, host, slots) && k < |entries| && e.host == entries[k].host && (e.stage.Pooled? <==> entries[k].stage.Pooled?)
    ensures SlotsWell(entries[k := e], host, slots)
  {
  }

  /** A step on one entry that leaves its host and its place in the pool alone. */
  lemma OnEntryInv(s: State, k: nat, e: Entry)
    requires Inv(s) && k < |s.entries| && EntryWell(e) && e.host == s.entries[k].host
    requires e.stage.Pooled? <==> s.entries[k].stage.Pooled?
    ensures Inv(s.(entries := s.entries[k := e]))
  {
    hide EntryWell, SlotsWell;
    forall h | h in s.hosts ensures SlotsWell(s.entries[k := e], h, s.hosts[h]) { SameSlots(s.entries, k, e, h, s.hosts[h]); }
  }

  lemma MoreSlots(entries: seq<Entry>, host: string, slots: seq<nat>, added: string)
    requires SlotsWell(entries, host, slots)
    ensures SlotsWell(entries + [NewEntry(added)], host, slots)
    ensures host == added ==> SlotsWell(entries + [NewEntry(added)], host, slots + [|entries|])
  {
  }

  lemma NewEntryPool(s: State, host: string)
    requires PoolWell(s.entries, s.hosts)
    ensures PoolWell(s.entries + [NewEntry(host)], s.hosts[host := Slots(s, host) + [|s.entries|]])
  {
    hide SlotsWell;
    var entries, hosts := s.entries + [NewEntry(host)], s.hosts[host := Slots(s, host) + [|s.entries|]];
    NoSlots(s.entries, host);
    MoreSlots(s.entries, host, Slots(s, host), host);
    forall h | h in s.hosts ensures SlotsWell(entries, h, s.hosts[h]) { MoreSlots(s.entries, h, s.hosts[h], host); }
    assert hosts[host][|Slots(s, host)|] == |s.entries|;
  }

  lemma NoSlots(entries: seq<Entry>, host: string)
    ensures SlotsWell(entries, host, [])
  {
  }

  lemma CheckoutInv(s: State, host: string)
    requires Inv(s)
    ensures Inv(DoCheckout(s, host))
  {
    hide EntryWell, PoolWell;
    var slots := Slots(s, host);
    var i := FirstFree(s, slots);
    if i < |slots| {
      SlotPooled(s, host, i);
      BeginWell(s.entries[slots[i]]);
      OnEntryInv(s, slots[i], Begin(s.entries[slots[i]]));
    } else {
      NewWell(host);
      NewEntryPool(s, host);
    }
  }

  lemma NewWell(host: string)
    ensures EntryWell(NewEntry(host))
  {
    assert Running([false]) == 1 by { assert [false][1..] == []; }
  }

  lemma SlotPooled(s: State, host: string, i: nat)
    requires PoolWell(s.entries, s.hosts) && i < |Slots(s, host)|
    ensures var k := Slots(s, host)[i]; k < |s.entries| && s.entries[k].stage.Pooled? && s.entries[k].host == host
  {
    assert SlotsWell(s.entries, host, Slots(s, host));
  }

  lemma {:induction false} KeptMembers(slots: seq<nat>, target: nat)
    ensures target !in Kept(slots, target)
    ensures forall k | k != target :: k in Kept(slots, target) <==> k in slots
    decreases |slots|
  {
    if slots != [] {
      var n := |slots| - 1;
      KeptMembers(slots[..n], target);
      assert slots == slots[..n] + [slots[n]];
    }
  }

  lemma {:induction false} KeptDistinct(slots: seq<nat>, target: nat)
    requires forall i, j | 0 <= i < j < |slots| :: slots[i] != slots[j]
    ensures forall i, j | 0 <= i < j < |Kept(slots, target)| :: Kept(slots, target)[i] != Kept(slots, target)[j]
    decreases |slots|
  {
    if slots != [] {
      var n := |slots| - 1;
      var rest := Kept(slots[..n], target);
      KeptDistinct(slots[..n], target);
      forall i | 0 <= i < |rest| ensures rest[i] != slots[n] { KeptFrom(slots[..n], target, i); }
    }
  }

  lemma KeptFrom(slots: seq<nat>, target: nat, i: nat)
    requires i < |Kept(slots, target)|
    ensures Kept(slots, target)[i] in slots && Kept(slots, target)[i] != target
  {
    KeptMembers(slots, target);
    assert Kept(slots, target)[i] in Kept(slots, target);
  }

  /** The target's own slice without it. */
  lemma KeptSlots(entries: seq<Entry>, host: string, slots: seq<nat>, target: nat, e: Entry)
    requires SlotsWell(entries, host, slots) && (target < |entries| ==> e.host == entries[target].host)
    ensures SlotsWell(if target < |entries| then entries[target := e] else entries, host, Kept(slots, target))
  {
    hide Kept;
    KeptDistinct(slots, target);
    forall i | 0 <= i < |Kept(slots, target)| ensures Kept(slots, target)[i] in slots && Kept(slots, target)[i] != target {
      KeptFrom(slots, target, i);
    }
  }

  /** Slices of other hosts do not hold it. */
  lemma OtherSlots(entries: seq<Entry>, host: string, slots: seq<nat>, target: nat, e: Entry)
    requires SlotsWell(entries, host, slots) && target < |entries| && entries[target].host != host
    ensures SlotsWell(entries[target := e], host, slots)
  {
  }

  lemma PoisonSlots(s: State, host: string, target: nat)
    requires PoolWell(s.entries, s.hosts)
    ensures var t := DoPoison(s, host, target); forall h | h in t.hosts :: SlotsWell(t.entries, h, t.hosts[h])
  {
    hide SlotsWell, Kept;
    var slots := Slots(s, host);
    var t := DoPoison(s, host, target);
    NoSlots(s.entries, host);
    if target < |s.entries| {
      KeptSlots(s.entries, host, slots, target, t.entries[target]);
      assert s.entries[target := s.entries[target]] == s.entries;
    } else {
      KeptSlots(s.entries, host, slots, target, NewEntry(host));
    }
    if target < |s.entries| && target in slots {
      var i :| 0 <= i < |slots| && slots[i] == target;
      SlotPooled(s, host, i);
      forall h | h in s.hosts && h != host ensures SlotsWell(t.entries, h, s.hosts[h]) {
        OtherSlots(s.entries, h, s.hosts[h], target, t.entries[target]);
      }
    }
  }

  lemma PoisonPool(s: State, host: string, target: nat)
    requires PoolWell(s.entries, s.hosts)
    ensures PoolWell(DoPoison(s, host, target).entries, DoPoison(s, host, target).hosts)
  {
    PoisonSlots(s, host, target);
    hide Kept, SlotsWell;
    var slots := Slots(s, host);
    KeptMembers(slots, target);
    var t := DoPoison(s, host, target);
    forall k | 0 <= k < |t.entries| && t.entries[k].stage.Pooled? ensures t.entries[k].host in t.hosts && k in t.hosts[t.entries[k].host] {
      assert s.entries[k].stage.Pooled? && k in s.hosts[s.entries[k].host];
    }
  }

  lemma PoisonInv(s: State, host: string, target: nat)
    requires Inv(s)
    ensures Inv(DoPoison(s, host, target))
  {
    hide PoolWell, Kept;
    PoisonPool(s, host, target);
    if target < |s.entries| && target in Slots(s, host) {
      var i :| 0 <= i < |Slots(s, host)| && Slots(s, host)[i] == target;
      SlotPooled(s, host, i);
    }
  }

  lemma StepInv(s: State, a: Action)
    requires Inv(s)
    ensures Inv(Step(s, a))
  {
    hide EntryWell, PoolWell, DoCheckout, DoPoison;
    match a
    case Checkout(host) => CheckoutInv(s, host);
    case Poison(host, k) => PoisonInv(s, host, k);
    case Release(k, body) => if k < |s.entries| { ReleaseWell(s.entries[k], body); OnEntryInv(s, k, DoRelease(s.entries[k], body)); }
    case LoadFlag(k) => if k < |s.entries| { FlagStepsWell(s.entries[k]); OnEntryInv(s, k, DoLoad(s.entries[k])); }
    case ReleaseCloses(k) => if k < |s.entries| { FlagStepsWell(s.entries[k]); OnEntryInv(s, k, DoReleaseCloses(s.entries[k])); }
    case StoreFlag(k) => if k < |s.entries| { FlagStepsWell(s.entries[k]); OnEntryInv(s, k, DoStore(s.entries[k])); }
    case PoisonCloses(k) => if k < |s.entries| { FlagStepsWell(s.entries[k]); OnEntryInv(s, k, DoPoisonCloses(s.entries[k])); }
    case CloseIdle(k) => if k < |s.entries| { FlagStepsWell(s.entries[k]); OnEntryInv(s, k, CloseIdleOn(s.entries[k])); }
  }

  // ---- whole runs ----

  function RunFrom(s: State, actions: seq<Action>): State
    decreases |actions|
  {
    if actions == [] then s else Step(RunFrom(s, actions[..|actions| - 1]), actions[|actions| - 1])
  }

  lemma {:induction false} RunInv(s: State, actions: seq<Action>)
    requires Inv(s)
    ensures Inv(RunFrom(s, actions))
    decreases |actions|
  {
    hide Inv;
    if actions != [] {
      RunInv(s, actions[..|actions| - 1]);
      StepInv(RunFrom(s, actions[..|actions| - 1]), actions[|actions| - 1]);
    }
  }

  ghost predicate Reachable(s: State) { exists actions :: s == RunFrom(Init(), actions) }

  lemma ReachableInv(s: State)
    requires Reachable(s)
    ensures Inv(s)
  {
    hide Inv, RunFrom;
    var actions :| s == RunFrom(Init(), actions);
    Reaches(actions);
  }

  lemma Reaches(actions: seq<Action>)
    ensures Inv(RunFrom(Init(), actions))
  {
    assert Inv(Init());
    hide Inv;
    RunInv(Init(), actions);
  }

  /** A connection carries as many sessions as have not been released, never more than four, and the
      pool opens another one only when every connection of the host is full. */
  lemma AtMostFourSessions(s: State, host: string, k: nat)
    requires Reachable(s) && k < |s.entries|
    ensures && 0 <= s.entries[k].sessions == Running(s.entries[k].bodies) <= MAX_SESSIONS
            && (CheckedOut(s, host) == |s.entries| && s.entries[k].host == host && s.entries[k].stage.Pooled? ==>
                  s.entries[k].sessions == MAX_SESSIONS)
  {
    hide Reachable, ClosesInTheEnd;
    ReachableInv(s);
    assert EntryWell(s.entries[k]);
    if CheckedOut(s, host) == |s.entries| && s.entries[k].host == host && s.entries[k].stage.Pooled? {
      var slots := Slots(s, host);
      var i := FirstFree(s, slots);
      assert k in slots;
    }
  }

  lemma NotCheckedOut(s: State, k: nat, host: string)
    requires Inv(s) && k < |s.entries| && !s.entries[k].stage.Pooled?
    ensures CheckedOut(s, host) != k
  {
    hide EntryWell, PoolWell;
    var i := FirstFree(s, Slots(s, host));
    if i < |Slots(s, host)| { SlotPooled(s, host, i); }
  }

  lemma CheckoutKeepsOut(s: State, host: string, k: nat)
    requires k < |s.entries| && CheckedOut(s, host) != k
    ensures var t := DoCheckout(s, host); k < |t.entries| && t.entries[k] == s.entries[k]
  {
  }

  lemma StepKeepsOut(s: State, a: Action, k: nat)
    requires Inv(s) && k < |s.entries| && !s.entries[k].stage.Pooled?
    ensures var t := Step(s, a);
            k < |t.entries| && !t.entries[k].stage.Pooled? && |t.entries[k].bodies| == |s.entries[k].bodies|
  {
    hide Inv, Kept, DoCheckout, CheckedOut, FirstFree;
    if a.Checkout? {
      NotCheckedOut(s, k, a.host);
      CheckoutKeepsOut(s, a.host, k);
    }
  }

  /** A poisoned entry is never handed out again, from its removal on. */
  lemma {:induction false} NeverHandedOutAgain(before: seq<Action>, after: seq<Action>, k: nat, host: string)
    requires var s := RunFrom(Init(), before); k < |s.entries| && !s.entries[k].stage.Pooled?
    ensures var s := RunFrom(Init(), before);
            var t := RunFrom(s, after);
            k < |t.entries| && !t.entries[k].stage.Pooled? && |t.entries[k].bodies| == |s.entries[k].bodies| && CheckedOut(t, host) != k
    decreases |after|
  {
    hide Inv, Step, CheckedOut;
    var s := RunFrom(Init(), before);
    Reaches(before);
    if after != [] {
      NeverHandedOutAgain(before, after[..|after| - 1], k, host);
      var t := RunFrom(s, after[..|after| - 1]);
      RunInv(s, after[..|after| - 1]);
      StepKeepsOut(t, after[|after| - 1], k);
    }
    RunInv(s, after);
    NotCheckedOut(RunFrom(s, after), k, host);
  }

  /** A checkout begins a session on the first listed connection with room, and only when there is none on
      a new one, listed last. */
  lemma CheckoutDecides(s: State, host: string)
    requires Reachable(s)
    ensures var k := CheckedOut(s, host);
            var t := Step(s, Checkout(host));
            && k < |t.entries| && t.entries[k].host == host && t.entries[k].stage.Pooled? && !t.entries[k].idleClosed
            && (forall j | 0 <= j < |s.entries| && j != k :: t.entries[j] == s.entries[j])
            && (forall h | h != host :: Slots(t, h) == Slots(s, h))
            && (if exists i :: 0 <= i < |Slots(s, host)| && Slots(s, host)[i] < |s.entries| && s.entries[Slots(s, host)[i]].sessions < MAX_SESSIONS
                then k < |s.entries| && |t.entries| == |s.entries| && Slots(t, host) == Slots(s, host)
                     && s.entries[k].sessions < MAX_SESSIONS && t.entries[k].sessions == s.entries[k].sessions + 1
                     && t.entries[k].bodies == s.entries[k].bodies + [false]
                else k == |s.entries| && |t.entries| == k + 1 && Slots(t, host) == Slots(s, host) + [k]
                     && t.entries[k].sessions == 1 && t.entries[k].bodies == [false])
  {
    hide Reachable, EntryWell;
    ReachableInv(s);
    var slots := Slots(s, host);
    var i := FirstFree(s, slots);
    hide FirstFree, PoolWell;
    if i < |slots| { SlotPooled(s, host, i); }
  }

  /** Poisoning takes the entry out of its host's list, and no other; the flag is then set, and idle
      connections are closed at once if no session is left. */
  lemma PoisonTakesOut(s: State, k: nat)
    requires Reachable(s) && k < |s.entries| && s.entries[k].stage.Pooled?
    ensures var host := s.entries[k].host;
            var t := Step(s, Poison(host, k));
            var v := Step(Step(t, StoreFlag(k)), PoisonCloses(k));
            && CheckedOut(t, host) != k && k !in Slots(t, host) && (forall j | j != k :: j in Slots(t, host) <==> j in Slots(s, host))
            && (forall h | h != host :: Slots(t, h) == Slots(s, h))
            && k < |v.entries| && v.entries[k].stage.Poisoned? && v.entries[k].poisoned && v.entries[k].bodies == s.entries[k].bodies
            && (s.entries[k].sessions == 0 ==> v.entries[k].idleClosed)
  {
    hide Reachable, Inv, FirstFree, CheckedOut, Step;
    ReachableInv(s);
    var host := s.entries[k].host;
    PoisonInv(s, host, k);
    Listed(s, k);
    KeptMembers(Slots(s, host), k);
    var t := DoPoison(s, host, k);
    FlagSteps(s, host, k);
    NotCheckedOut(t, k, host);
  }

  lemma Listed(s: State, k: nat)
    requires Inv(s) && k < |s.entries| && s.entries[k].stage.Pooled?
    ensures k in Slots(s, s.entries[k].host)
  {
    hide EntryWell;
  }

  lemma FlagSteps(s: State, host: string, k: nat)
    requires k < |s.entries| && k in Slots(s, host)
    ensures var t := Step(s, Poison(host, k));
            var v := Step(Step(t, StoreFlag(k)), PoisonCloses(k));
            && t == DoPoison(s, host, k) && k < |v.entries|
            && v.entries[k] == s.entries[k].(stage := Poisoned, poisoned := true, idleClosed := s.entries[k].idleClosed || s.entries[k].sessions == 0)
  {
    hide Kept;
  }

  /** The release of the last session of a flagged entry closes its idle connections. */
  lemma LastReleaseCloses(s: State, k: nat, body: nat)
    requires Reachable(s) && k < |s.entries| && s.entries[k].poisoned && s.entries[k].sessions == 1
    requires body < |s.entries[k].bodies| && !s.entries[k].bodies[body]
    ensures var t := Step(Step(Step(s, Release(k, body)), LoadFlag(k)), ReleaseCloses(k));
            k < |t.entries| && t.entries[k].sessions == 0 && t.entries[k].idleClosed
  {
    hide Reachable;
  }

  /** Once a poisoning and every release are done, a poisoned entry without sessions had its idle
      connections closed at a moment without sessions. */
  lemma PoisonedEndsClosed(s: State, k: nat)
    requires Reachable(s) && k < |s.entries| && s.entries[k].stage.Poisoned? && s.entries[k].sessions == 0 && s.entries[k].loads == 0 && s.entries[k].closes == 0
    ensures s.entries[k].idleClosed
  {
    hide Reachable, PoolWell;
    ReachableInv(s);
    assert EntryWell(s.entries[k]);
  }

  // ---- the pool object ----

  class SpreadTransport {
    var entries: seq<Entry>
    var hosts: map<string, seq<nat>>

    ghost function Abs(): State
      reads this
    {
      State(entries, hosts)
    }

    ghost predicate Valid()
      reads this
    {
      Inv(Abs())
    }

    constructor ()
      ensures Valid() && Abs() == Init()
    {
      entries, hosts := [], map[];
    }

    /** The place of the first entry with room. */
    method FindFree(slots: seq<nat>) returns (i: nat)
      requires forall j | 0 <= j < |slots| :: slots[j] < |entries|
      ensures i == FirstFree(Abs(), slots)
    {
      hide FirstFree;
      i := 0;
      while i < |slots|
        invariant i <= |slots| && FirstFree(Abs(), slots) == i + FirstFree(Abs(), slots[i..])
      {
        FreeHere(Abs(), slots[i..]);
        if entries[slots[i]].sessions < MAX_SESSIONS { return; }
        assert slots[i..][1..] == slots[i + 1..];
        i := i + 1;
      }
      FreeHere(Abs(), slots[i..]);
    }

    method CheckoutEntry(host: string) returns (k: nat)
      requires Valid()
      modifies this
      ensures Valid() && Abs() == DoCheckout(old(Abs()), host) && k == CheckedOut(old(Abs()), host)
    {
      CheckoutInv(Abs(), host);
      forall i | 0 <= i < |Slots(Abs(), host)| ensures Slots(Abs(), host)[i] < |entries| { SlotPooled(Abs(), host, i); }
      hide Inv, FirstFree;
      var slots := if host in hosts then hosts[host] else [];
      var i := FindFree(slots);
      if i < |slots| {
        k := slots[i];
        entries := entries[k := Begin(entries[k])];
      } else {
        k := |entries|;
        entries := entries + [NewEntry(host)];
        hosts := hosts[host := slots + [k]];
      }
    }

    /** The slice without the target, and whether it was there. */
    method FilterOut(slots: seq<nat>, target: nat) returns (kept: seq<nat>, removed: bool)
      ensures kept == Kept(slots, target) && removed == (target in slots)
    {
      kept, removed := [], false;
      for i := 0 to |slots|
        invariant kept == Kept(slots[..i], target) && removed == (target in slots[..i])
      {
        assert slots[..i + 1][..i] == slots[..i];
        if slots[i] == target { removed := true; } else { kept := kept + [slots[i]]; }
      }
      assert slots[..|slots|] == slots;
    }

    /** Removal under the lock: filter the host's slice. */
    method RemoveEntry(host: string, target: nat) returns (removed: bool)
      requires Valid() && target < |entries|
      modifies this
      ensures Valid() && Abs() == DoPoison(old(Abs()), host, target)
      ensures removed == (target in Slots(old(Abs()), host))
    {
      PoisonInv(Abs(), host, target);
      hide Inv, Kept;
      var slots := if host in hosts then hosts[host] else [];
      var kept;
      kept, removed := FilterOut(slots, target);
      hosts := hosts[host := kept];
      if removed { entries := entries[target := entries[target].(stage := Removed)]; }
    }

    /** Closing a response body; true when this release has to look at the poisoned flag. */
    method CloseBody(k: nat, body: nat) returns (last: bool)
      requires Valid() && k < |entries| && body < |entries[k].bodies|
      modifies this
      ensures Valid() && Abs() == Step(old(Abs()), Release(k, body))
      ensures last == (!old(entries)[k].bodies[body] && entries[k].sessions == 0)
    {
      StepInv(Abs(), Release(k, body));
      hide Inv;
      var e := entries[k];
      if e.bodies[body] { return false; }
      e := e.(bodies := e.bodies[body := true], sessions := e.sessions - 1);
      last := e.sessions == 0;
      if last { e := e.(loads := e.loads + 1); }
      entries := entries[k := e];
    }
  }

  lemma FreeHere(s: State, slots: seq<nat>)
    ensures slots == [] ==> FirstFree(s, slots) == 0
    ensures slots != [] && slots[0] < |s.entries| && s.entries[slots[0]].sessions < MAX_SESSIONS ==> FirstFree(s, slots) == 0
    ensures slots != [] && slots[0] < |s.entries| && s.entries[slots[0]].sessions >= MAX_SESSIONS ==> FirstFree(s, slots) == 1 + FirstFree(s, slots[1..])
  {
  }
}
