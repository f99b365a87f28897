/** The objects of the Bento input: the sequence number cache, the map of batches to acknowledge and
    a stream input (s2-bentobox/input.go, s2-bentobox/stream_input.go). */
module BentoObjects {
  import opened Options
  import opened AckTracking
  import opened BentoInput

  function At(m: map<string, nat>, stream: string): Option<nat> { if stream in m then Some(m[stream]) else None }

  class SeqNumCache {
    const hasDurable: bool
    var mem: map<string, nat>
    var durable: map<string, nat>
    var gens: map<string, nat>

    constructor (hasDurable: bool, stored: map<string, nat>)
      ensures this.hasDurable == hasDurable && Valid()
      ensures forall stream :: Of(stream) == Position(None, if hasDurable then At(stored, stream) else None, 0)
    {
      this.hasDurable := hasDurable;
      mem, durable, gens := map[], if hasDurable then stored else map[], map[];
    }

    ghost predicate Valid()
      reads this
    {
      !hasDurable ==> durable == map[]
    }

    ghost function Of(stream: string): Position
      reads this
    {
      Position(At(mem, stream), At(durable, stream), if stream in gens then gens[stream] else 0)
    }

    method GenerationOf(stream: string) returns (gen: nat)
      requires Valid()
      modifies this`gens
      ensures Valid() && gen == Of(stream).gen && forall o :: Of(o) == old(Of(o))
    {
      if stream !in gens { gens := gens[stream := 0]; }
      return gens[stream];
    }

    method Get(stream: string, durableAnswers: bool) returns (found: Option<nat>)
      requires Valid()
      modifies this`mem
      ensures Valid() && found == Lookup(old(Of(stream)), durableAnswers)
      ensures Of(stream) == Remember(old(Of(stream)), found)
      ensures forall o | o != stream :: Of(o) == old(Of(o))
    {
      if stream in mem { return Some(mem[stream]); }
      if !hasDurable || !durableAnswers || stream !in durable { return None; }
      var cached := durable[stream];
      mem := mem[stream := cached];
      return Some(cached);
    }

    /** False when the durable write failed. */
    method Set(stream: string, seqNum: nat, gen: nat, durableWrites: bool) returns (ok: bool)
      requires Valid()
      modifies this
      ensures Valid() && (Of(stream), ok) == SetPosition(old(Of(stream)), hasDurable, seqNum, gen, durableWrites)
      ensures forall o | o != stream :: Of(o) == old(Of(o))
    {
      var current := GenerationOf(stream);
      if gen < current { return true; }
      mem := mem[stream := seqNum];
      if hasDurable {
        if !durableWrites { return false; }
        durable := durable[stream := seqNum];
      }
      return true;
    }

    /** Memory moves to the tail even when the durable write fails. */
    method ResetToTail(stream: string, tail: nat, durableWrites: bool) returns (ok: bool)
      requires Valid()
      modifies this
      ensures Valid() && ok == (!hasDurable || durableWrites)
      ensures Of(stream) == Position(Some(tail), if hasDurable && durableWrites then Some(tail) else old(Of(stream)).durable, old(Of(stream)).gen + 1)
      ensures forall o | o != stream :: Of(o) == old(Of(o))
    {
      var current := GenerationOf(stream);
      gens := gens[stream := current + 1];
      mem := mem[stream := tail];
      if hasDurable {
        if !durableWrites { return false; }
        durable := durable[stream := tail];
      }
      return true;
    }

    method Forget(stream: string)
      requires Valid()
      modifies this`mem
      ensures Valid() && Of(stream) == old(Of(stream)).(mem := None)
      ensures forall o | o != stream :: Of(o) == old(Of(o))
    {
      mem := mem - {stream};
    }
  }

  datatype DoneResult = Done | CannotAck | CacheFailed

  class ToAckMap {
    const stream: string
    const gen: nat
    const cache: SeqNumCache
    var inner: seq<Entry>

    constructor (stream: string, cache: SeqNumCache, gen: nat)
      ensures this.stream == stream && this.cache == cache && this.gen == gen && inner == []
    {
      this.stream, this.cache, this.gen, inner := stream, cache, gen, [];
    }

    method Add(r: Range)
      modifies this
      ensures inner == Put(old(inner), Entry(r.first, r.last, false))
    {
      inner := Put(inner, Entry(r.first, r.last, false));
    }

    /** The scan over acknowledged batches without gaps. */
    method ScanPrefix() returns (n: nat)
      ensures n == AckedPrefix(inner)
    {
      n := 0;
      while n < |inner| && inner[n].acked && (n == 0 || inner[n].first == inner[n - 1].last + 1)
        invariant n <= |inner| && AckedPrefix(inner) == PrefixFrom(inner, n)
        decreases |inner| - n
      {
        n := n + 1;
      }
    }

    /** Nothing is deleted unless the position was written. */
    method MarkDone(r: Range, durableWrites: bool) returns (result: DoneResult)
      requires cache.Valid()
      modifies this, cache
      ensures cache.Valid() && forall o | o != stream :: cache.Of(o) == old(cache.Of(o))
      ensures result.CannotAck? <==> Mark(old(inner), r.first).None?
      ensures result.CannotAck? ==> inner == old(inner) && cache.Of(stream) == old(cache.Of(stream))
      ensures Mark(old(inner), r.first).Some? ==>
                var es := Mark(old(inner), r.first).value;
                var n := AckedPrefix(es);
                if n == 0 then
                  result == Done && inner == es && cache.Of(stream) == old(cache.Of(stream))
                else
                  var (written, ok) := SetPosition(old(cache.Of(stream)), cache.hasDurable, es[n - 1].last + 1, gen, durableWrites);
                  && cache.Of(stream) == written
                  && result == (if ok then Done else CacheFailed)
                  && inner == if ok then es[n..] else es
    {
      var i := Find(inner, r.first);
      if i == |inner| { return CannotAck; }
      inner := Put(inner, inner[i].(acked := true));
      var n := ScanPrefix();
      if n > 0 {
        var ok := cache.Set(stream, inner[n - 1].last + 1, gen, durableWrites);
        if !ok { return CacheFailed; }
      }
      inner := inner[n..];
      return Done;
    }
  }

  /** What an ack function was told, once. */
  class StreamInput {
    const toAck: ToAckMap
    var nacks: seq<Range>
    var tickets: seq<Ticket>
    var next: nat
    ghost var swept: nat
    ghost const epoch: nat
    ghost var lost: seq<Range>

    constructor (stream: string, cache: SeqNumCache, gen: nat, start: nat, ghost epoch: nat)
      ensures fresh(toAck) && toAck.cache == cache && toAck.stream == stream
      ensures Abs() == Session(gen, [], [], [], epoch, start, start, [])
    {
      toAck := new ToAckMap(stream, cache, gen);
      nacks, tickets, next, swept := [], [], start, start;
      this.epoch := epoch;
      lost := [];
    }

    ghost function Abs(): Session
      reads this, toAck
    {
      Session(toAck.gen, toAck.inner, nacks, tickets, epoch, swept, next, lost)
    }

    /** A batch of `count` records, unless one is waiting for redelivery. */
    method Receive(count: nat) returns (got: Option<Range>)
      modifies this, toAck
      ensures Abs() == ReadBatch(old(Abs()), count)
      ensures got == if old(nacks) != [] then Some(old(nacks)[0]) else if count == 0 then None else Some(Range(old(next), old(next) + count - 1))
    {
      var r: Range;
      if |nacks| > 0 {
        r := nacks[0];
        nacks := nacks[1..];
      } else {
        if count == 0 { return None; }
        r := Range(next, next + count - 1);
        next := next + count;
      }
      toAck.Add(r);
      tickets := tickets + [Ticket(r, false)];
      return Some(r);
    }

    method Negative(t: nat, queued: bool)
      requires t < |tickets|
      modifies this
      ensures Abs() == if old(tickets)[t].used then old(Abs())
                       else Spend(old(Abs()), t).(nacks := if queued then old(nacks) + [old(tickets)[t].range] else old(nacks),
                                                  lost := if queued then old(lost) else old(lost) + [old(tickets)[t].range])
    {
      if tickets[t].used { return; }
      var r := tickets[t].range;
      tickets := tickets[t := tickets[t].(used := true)];
      if queued { nacks := nacks + [r]; } else { lost := lost + [r]; }
    }

    /** The positive answer: like the step `Ack` of a state holding this session and cache. */
    method Positive(t: nat, durableWrites: bool, ghost s: State, ghost k: nat)
      requires t < |tickets| && toAck.cache.Valid()
      requires k < |s.sessions| && s.sessions[k] == Abs() && s.cache == toAck.cache.Of(toAck.stream) && s.hasDurable == toAck.cache.hasDurable
      modifies this, toAck, toAck.cache
      ensures toAck.cache.Valid()
      ensures var u := DoAck(s, k, t, durableWrites);
              k < |u.sessions| && u.sessions[k] == Abs() && u.cache == toAck.cache.Of(toAck.stream)
    {
      hide AckedPrefix, Mark, SetPosition, Put;
      if tickets[t].used { return; }
      var r := tickets[t].range;
      tickets := tickets[t := tickets[t].(used := true)];
      ghost var es := Mark(toAck.inner, r.first);
      var result := toAck.MarkDone(r, durableWrites);
      if es.Some? && result.Done? && AckedPrefix(es.value) > 0 { swept := es.value[AckedPrefix(es.value) - 1].last + 1; }
    }
  }
}
