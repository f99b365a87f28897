/** Following the server's advice to reconnect, at most once in a while (s2/reconnect.go). */
module Reconnect {
  import opened Options

  const MAX_ADVISED_RECONNECTS: nat := 1
  /** 60 seconds in nanoseconds. */
  const ADVISED_RECONNECT_IDLE: nat := 60_000_000_000

  datatype Advised = Advised(count: nat, last: Option<int>)

  predicate IsRecent(a: Advised, now: int) {
    a.last.Some? && now - a.last.value <= ADVISED_RECONNECT_IDLE
  }

  predicate ShouldReconnect(a: Advised, now: int) {
    !IsRecent(a, now) || a.count < MAX_ADVISED_RECONNECTS
  }

  function Record(a: Advised, now: int): Advised {
    Advised(if IsRecent(a, now) then a.count + 1 else 1, Some(now))
  }

  /** Advice on a frame is judged when it arrives. A reconnect is recorded when it is carried out: at
      once by the read session, at the clean end of the response by the append session, and for every
      drain. */
  datatype Event = Advice(at: int) | Recorded(at: int)

  /** A judgement in favour, with how many reconnects had been recorded by then. */
  datatype Judged = Judged(at: int, after: nat)

  datatype Log = Log(state: Advised, followed: seq<Judged>, recorded: seq<int>)

  function Handle(l: Log, e: Event): Log {
    match e
    case Advice(at) => if ShouldReconnect(l.state, at) then l.(followed := l.followed + [Judged(at, |l.recorded|)]) else l
    case Recorded(at) => l.(state := Record(l.state, at), recorded := l.recorded + [at])
  }

  function Run(events: seq<Event>): Log
    decreases |events|
  {
    if events == [] then Log(Advised(0, None), [], [])
    else Handle(Run(events[..|events| - 1]), events[|events| - 1])
  }

  ghost predicate ClockAdvances(events: seq<Event>) {
    forall i, j | 0 <= i < j < |events| :: events[i].at <= events[j].at
  }

  ghost predicate Inv(l: Log, now: int) {
    && (l.recorded == [] <==> l.state.last.None?)
    && (l.recorded != [] ==> l.state.last == Some(l.recorded[|l.recorded| - 1]) && l.state.count >= 1)
    && (forall i | 0 <= i < |l.recorded| :: l.recorded[i] <= now && l.recorded[i] <= l.recorded[|l.recorded| - 1])
    && (forall i | 0 <= i < |l.followed| :: l.followed[i].after <= |l.recorded|)
    && (forall i, j | 0 <= i < |l.followed| && 0 <= j < l.followed[i].after :: l.followed[i].at - l.recorded[j] > ADVISED_RECONNECT_IDLE)
  }

  lemma {:induction false} RunInv(events: seq<Event>, now: int)
    requires ClockAdvances(events) && forall i | 0 <= i < |events| :: events[i].at <= now
    ensures Inv(Run(events), now)
    decreases |events|
  {
    if events != [] {
      var n := |events| - 1;
      RunInv(events[..n], events[n].at);
    }
  }

  /** Advice is followed if and only if no reconnect of any kind was recorded within the idle gap before
      it; so wherever a reconnect is recorded before the next advice, followed advice is spaced out. */
  lemma AdviceIsSpacedOut(events: seq<Event>, at: int)
    requires ClockAdvances(events) && forall i | 0 <= i < |events| :: events[i].at <= at
    ensures var l := Run(events);
            && (forall i, j | 0 <= i < |l.followed| && 0 <= j < l.followed[i].after ::
                  j < |l.recorded| && l.followed[i].at - l.recorded[j] > ADVISED_RECONNECT_IDLE)
            && (ShouldReconnect(l.state, at) <==> forall i | 0 <= i < |l.recorded| :: at - l.recorded[i] > ADVISED_RECONNECT_IDLE)
  {
    RunInv(events, at);
  }

  class AdvisedReconnects {
    var count: nat
    var last: Option<int>

    ghost function Abs(): Advised
      reads this
    {
      Advised(count, last)
    }

    constructor ()
      ensures Abs() == Advised(0, None)
    {
      count, last := 0, None;
    }

    method RecordAt(now: int)
      modifies this
      ensures Abs() == Record(old(Abs()), now)
    {
      if last.None? || now - last.value > ADVISED_RECONNECT_IDLE { count := 0; }
      last := Some(now);
      count := count + 1;
    }
  }
}
