/** Byte and batch backpressure (s2/capacity.go). */
module Capacity {
  import opened Options

  datatype Tracker = Tracker(maxBytes: nat, maxItems: int, curBytes: int, curItems: int, closed: bool)

  datatype TryResult = Reserved | NoRoom | TooLarge | BadLimit | Closed | ContextDone

  predicate HasCapacity(c: Tracker, bytes: int) {
    && !(c.maxBytes > 0 && c.curBytes + bytes > c.maxBytes)
    && !(c.maxItems > 0 && c.curItems >= c.maxItems)
  }

  function Reserve(c: Tracker, bytes: int): Tracker {
    c.(curBytes := c.curBytes + bytes, curItems := if c.maxItems > 0 then c.curItems + 1 else c.curItems)
  }

  /** Release clamps both counters at zero. */
  function Release(c: Tracker, bytes: int): Tracker {
    c.(curBytes := if bytes <= 0 then c.curBytes else if c.curBytes - bytes < 0 then 0 else c.curBytes - bytes,
       curItems := if c.maxItems > 0 && c.curItems > 0 then c.curItems - 1 else c.curItems)
  }

  /** `tryReserve`: the outcome and the new counters. */
  function TryReserve(c: Tracker, bytes: int, contextDone: bool): (TryResult, Tracker) {
    if c.maxBytes > 0 && bytes > c.maxBytes then (TooLarge, c)
    else if c.maxItems < 0 then (BadLimit, c)
    else if c.closed then (Closed, c)
    else if contextDone then (ContextDone, c)
    else if !HasCapacity(c, bytes) then (NoRoom, c)
    else (Reserved, Reserve(c, bytes))
  }

  function ReleaseAll(c: Tracker, amounts: seq<int>): Tracker
    decreases |amounts|
  {
    if amounts == [] then c else ReleaseAll(Release(c, amounts[0]), amounts[1..])
  }

  function Sum(amounts: seq<int>): int {
    if amounts == [] then 0 else amounts[0] + Sum(amounts[1..])
  }

  predicate AllPositive(amounts: seq<int>) {
    forall i | 0 <= i < |amounts| :: amounts[i] > 0
  }

  /** `c` holds exactly the reservations listed in `held`. */
  ghost predicate Holds(c: Tracker, held: seq<int>) {
    && AllPositive(held)
    && c.curBytes == Sum(held)
    && c.curItems == (if c.maxItems > 0 then |held| else 0)
  }

  ghost predicate WithinLimits(c: Tracker) {
    && (c.maxBytes > 0 ==> c.curBytes <= c.maxBytes)
    && (c.maxItems > 0 ==> c.curItems <= c.maxItems)
  }

  lemma {:induction false} SumAppend(a: seq<int>, b: seq<int>)
    ensures Sum(a + b) == Sum(a) + Sum(b)
  {
    if a == [] {
      assert a + b == b;
    } else {
      assert (a + b)[1..] == a[1..] + b;
      SumAppend(a[1..], b);
    }
  }

  lemma {:induction false} SumNonNegative(a: seq<int>)
    requires AllPositive(a)
    ensures Sum(a) >= 0 && (a != [] ==> Sum(a) > 0)
  {
    if a != [] { SumNonNegative(a[1..]); }
  }

  /** Taking one held reservation away, wherever it stands in the list. */
  lemma {:induction false} SumRemove(a: seq<int>, k: nat)
    requires k < |a|
    ensures Sum(a) == a[k] + Sum(a[..k] + a[k + 1..])
  {
    var rest := a[..k] + a[k + 1..];
    if k == 0 {
      assert rest == a[1..];
    } else {
      assert rest[1..] == a[1..][..k - 1] + a[1..][k..];
      SumRemove(a[1..], k - 1);
    }
  }

  /** A held reservation is given back without ever reaching the clamp. */
  lemma ReleaseHeld(c: Tracker, held: seq<int>, k: nat)
    requires Holds(c, held) && WithinLimits(c) && k < |held|
    ensures Holds(Release(c, held[k]), held[..k] + held[k + 1..])
    ensures WithinLimits(Release(c, held[k]))
    ensures Release(c, held[k]).curBytes == c.curBytes - held[k]
  {
    SumRemove(held, k);
    SumNonNegative(held[..k] + held[k + 1..]);
  }

  /** Releasing a whole prefix of the held reservations, one by one. */
  lemma {:induction false} ReleaseAllHeld(c: Tracker, gone: seq<int>, kept: seq<int>)
    requires Holds(c, gone + kept) && WithinLimits(c)
    ensures Holds(ReleaseAll(c, gone), kept) && WithinLimits(ReleaseAll(c, gone))
    ensures ReleaseAll(c, gone).curBytes == c.curBytes - Sum(gone)
    ensures ReleaseAll(c, gone).(curBytes := c.curBytes, curItems := c.curItems) == c
    decreases |gone|
  {
    if gone == [] {
      assert gone + kept == kept;
    } else {
      ReleaseHeld(c, gone + kept, 0);
      assert (gone + kept)[..0] + (gone + kept)[1..] == gone[1..] + kept;
      ReleaseAllHeld(Release(c, gone[0]), gone[1..], kept);
    }
  }

  lemma ReserveHolds(c: Tracker, held: seq<int>, bytes: int)
    requires Holds(c, held) && WithinLimits(c) && bytes > 0 && HasCapacity(c, bytes)
    ensures Holds(Reserve(c, bytes), held + [bytes]) && WithinLimits(Reserve(c, bytes))
  {
    SumAppend(held, [bytes]);
    assert Sum([bytes]) == bytes;
  }

  /** A reservation is granted exactly when the tracker is open, its item limit is valid, the caller has
      not given up and it fits beside what is held; and then it is held too. */
  lemma GrantedIff(c: Tracker, held: seq<int>, bytes: int, contextDone: bool)
    requires Holds(c, held) && WithinLimits(c) && bytes > 0
    ensures var (r, d) := TryReserve(c, bytes, contextDone);
            && (r == Reserved <==>
                  && !c.closed && !contextDone && c.maxItems >= 0
                  && (c.maxBytes > 0 ==> Sum(held + [bytes]) <= c.maxBytes)
                  && (c.maxItems > 0 ==> |held + [bytes]| <= c.maxItems))
            && (r == Reserved ==> Holds(d, held + [bytes]))
            && (r != Reserved ==> d == c)
            && (r == TooLarge <==> c.maxBytes > 0 && bytes > c.maxBytes)
  {
    SumAppend(held, [bytes]);
    assert Sum([bytes]) == bytes;
    SumNonNegative(held);
  }

  /** The tracker object; the blocking `reserve` is `TryReserve` repeated until it stops saying NoRoom. */
  class CapacityTracker {
    const maxBytes: nat
    const maxItems: int
    var curBytes: int
    var curItems: int
    var closed: bool

    function State(): Tracker
      reads this
    {
      Tracker(maxBytes, maxItems, curBytes, curItems, closed)
    }

    constructor (maxBytes: nat, maxItems: int)
      ensures State() == Tracker(maxBytes, maxItems, 0, 0, false)
    {
      this.maxBytes, this.maxItems := maxBytes, maxItems;
      curBytes, curItems, closed := 0, 0, false;
    }

    method TryToReserve(bytes: int, contextDone: bool) returns (r: TryResult)
      modifies this
      ensures (r, State()) == TryReserve(old(State()), bytes, contextDone)
    {
      if maxBytes > 0 && bytes > maxBytes { return TooLarge; }
      if maxItems != 0 && maxItems < 1 { return BadLimit; }
      if closed { return Closed; }
      if contextDone { return ContextDone; }
      if !HasCapacity(State(), bytes) { return NoRoom; }
      curBytes := curBytes + bytes;
      if maxItems > 0 { curItems := curItems + 1; }
      r := Reserved;
    }

    method GiveBack(bytes: int)
      modifies this
      ensures State() == Release(old(State()), bytes)
    {
      if bytes > 0 {
        curBytes := curBytes - bytes;
        if curBytes < 0 { curBytes := 0; }
      }
      if maxItems > 0 && curItems > 0 { curItems := curItems - 1; }
    }

    method Close()
      modifies this
      ensures State() == old(State()).(closed := true)
    {
      closed := true;
    }
  }
}
