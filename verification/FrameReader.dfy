/** The incremental parser over a lazily compacted buffer, and the reader that feeds it
    (internal/framing/framing.go). */
module FrameReaders {
  import opened Options
  import opened Framing

  const READ_CHUNK_SIZE: int := 64 * 1024
  const INITIAL_CAPACITY: int := 8192
  /** A complete frame with its length prefix never exceeds this. */
  const LARGEST_FRAME: int := MAX_FRAME_SIZE + 3

  datatype ReadError = EndOfFile | Broken(text: string)

  /** An `io.Reader` over a fixed byte stream. `cuts` lists how many bytes each coming read may
      deliver (zero allowed); once it is used up a read delivers all it has room for. The final
      error comes with the last bytes or after them. */
  class Source {
    var rest: seq<Byte>
    var cuts: seq<nat>
    const end: ReadError
    const endWithData: bool
    var ended: bool

    constructor (stream: seq<Byte>, cuts: seq<nat>, end: ReadError, endWithData: bool)
      ensures rest == stream && this.cuts == cuts && this.end == end && !ended
    {
      rest, this.cuts, this.end, this.endWithData, ended := stream, cuts, end, endWithData, false;
    }

    ghost function Work(): nat
      reads this
    {
      |rest| + |cuts| + (if ended then 0 else 1)
    }

    /** Callers always offer at least one byte of space. */
    method Read(space: nat) returns (chunk: seq<Byte>, err: Option<ReadError>)
      requires space >= 1
      modifies this
      ensures chunk + rest == old(rest) && |chunk| <= space
      ensures err.Some? <==> ended
      ensures err.Some? ==> rest == [] && err.value == end
      ensures !old(ended) ==> Work() < old(Work())
    {
      var n := if cuts == [] then |rest| else cuts[0];
      if n > |rest| { n := |rest|; }
      if n > space { n := space; }
      if cuts != [] { cuts := cuts[1..]; }
      var was := |rest|;
      chunk, rest := rest[..n], rest[n..];
      ended := |rest| == 0 && (was == 0 || endWithData);
      err := if ended then Some(end) else None;
    }
  }

  /** `copy(b, b[from:])`, front to back. */
  method MoveDown(d: array<Byte>, from: nat, n: nat)
    requires from + n <= d.Length
    modifies d
    ensures d[..n] == old(d[from..from + n])
  {
    ghost var src := d[from..from + n];
    for i := 0 to n
      invariant forall j | 0 <= j < i :: d[j] == src[j]
      invariant forall k | from + i <= k < d.Length :: d[k] == old(d[k])
    {
      d[i] := d[from + i];
    }
  }

  method Fill(d: array<Byte>, at: nat, chunk: seq<Byte>)
    requires at + |chunk| <= d.Length
    modifies d
    ensures d[..at] == old(d[..at]) && d[at..at + |chunk|] == chunk
  {
    for i := 0 to |chunk|
      invariant forall j | 0 <= j < at :: d[j] == old(d[j])
      invariant forall j | 0 <= j < i :: d[at + j] == chunk[j]
    {
      d[at + i] := chunk[i];
    }
  }

  /** `S2SFrameParser`: `data[off..len]` are the unconsumed bytes, `need` the size of a pending
      incomplete frame, or 0. */
  class Parser {
    var data: array<Byte>
    var len: nat
    var off: nat
    var need: nat

    ghost predicate Valid()
      reads this, data
    {
      && off <= len <= data.Length
      && (need > 0 ==> && len - off >= 4
                       && need == 3 + Length(data[off..len]) && 4 <= need <= LARGEST_FRAME)
    }

    ghost function Unread(): seq<Byte>
      reads this, data
      requires Valid()
    {
      data[off..len]
    }

    constructor ()
      ensures Valid() && fresh(data) && Unread() == [] && data.Length < 2 * LARGEST_FRAME
    {
      data := new Byte[INITIAL_CAPACITY];
      len, off, need := 0, 0, 0;
    }

    /** Move the unconsumed bytes to the front, in place. */
    method Compact()
      requires Valid()
      modifies this`len, this`off, data
      ensures Valid() && Unread() == old(Unread()) && off == 0 && data == old(data)
    {
      ghost var unread := Unread();
      MoveDown(data, off, len - off);
      len, off := len - off, 0;
      assert data[0..len] == unread;
    }

    /** Room for `n` more bytes: compact first, grow only if that is not enough. */
    method EnsureSpare(n: nat)
      requires Valid()
      modifies this`data, this`len, this`off, data
      ensures Valid() && Unread() == old(Unread()) && need == old(need)
      ensures data.Length - len >= n
      ensures data == old(data) || fresh(data)
      ensures data.Length == old(data.Length) ||
              (old(data.Length) < |old(Unread())| + n &&
               data.Length == if old(data.Length) * 2 < |old(Unread())| + n then |old(Unread())| + n else old(data.Length) * 2)
    {
      if data.Length - len >= n { return; }
      if off > 0 { Compact(); }
      if data.Length - len >= n { return; }
      Grow(n);
    }

    method Grow(n: nat)
      requires Valid() && off == 0
      modifies this`data
      ensures Valid() && Unread() == old(Unread()) && fresh(data)
      ensures data.Length == if old(data.Length) * 2 < len + n then len + n else old(data.Length) * 2
    {
      ghost var unread := Unread();
      var newCap := data.Length * 2;
      if newCap < len + n { newCap := len + n; }
      var bigger := new Byte[newCap];
      Fill(bigger, 0, data[..len]);
      data := bigger;
      assert data[0..len] == unread;
    }

    /** `Push`: append bytes to the buffer. */
    method Push(chunk: seq<Byte>)
      requires Valid()
      modifies this`data, this`len, this`off, data
      ensures Valid() && Unread() == old(Unread()) + chunk && need == old(need)
      ensures data == old(data) || fresh(data)
    {
      EnsureSpare(|chunk|);
      Store(chunk);
    }

    method Store(chunk: seq<Byte>)
      requires Valid() && data.Length - len >= |chunk|
      modifies this`len, data
      ensures Valid() && Unread() == old(Unread()) + chunk && data == old(data)
    {
      ghost var unread := Unread();
      Fill(data, len, chunk);
      assert data[off..len] == data[..len][off..] == unread;
      assert data[off..len + |chunk|] == data[off..len] + data[len..len + |chunk|];
      len := len + |chunk|;
      assert need > 0 ==> Length(data[off..len]) == Length(unread);
    }

    /** One read from `r` into the spare space; called only when no complete frame is buffered. */
    method ReadFrom(r: Source) returns (n: nat, err: Option<ReadError>)
      requires Valid() && ParseOne(Unread()).NeedMore? && (need == 0 ==> |Unread()| < 4)
      requires data.Length < 2 * LARGEST_FRAME && !r.ended
      modifies this`data, this`len, this`off, data, r
      ensures Valid() && need == old(need)
      ensures Unread() + r.rest == old(Unread()) + old(r.rest)
      ensures err.Some? <==> r.ended
      ensures err.Some? ==> r.rest == [] && err.value == r.end
      ensures n == |Unread()| - |old(Unread())| && n >= 0
      ensures r.Work() < old(r.Work())
      ensures data.Length < 2 * LARGEST_FRAME
      ensures data == old(data) || fresh(data)
    {
      var spare := READ_CHUNK_SIZE;
      if need > 0 {
        var rem := need - (len - off);
        if rem > 0 { spare := rem; }
      }
      EnsureSpare(spare);
      var chunk;
      chunk, err := r.Read(data.Length - len);
      ghost var unread := Unread();
      Store(chunk);
      n := |chunk|;
      assert unread + chunk + r.rest == unread + (chunk + r.rest);
    }

    /** `ParseFrame` on the unconsumed bytes. */
    method ParseFrame() returns (p: Parsed)
      requires Valid()
      modifies this`len, this`off, this`need
      ensures Valid() && data == old(data)
      ensures p == ParseOne(old(Unread()))
      ensures Unread() == if p.Got? then old(Unread())[p.size..] else old(Unread())
      ensures p.NeedMore? && need == 0 ==> |Unread()| < 4
    {
      hide CompressionOf, IsTerminal;
      ghost var unread := Unread();
      if len - off < 4 { return NeedMore; }
      assert unread[0] == data[off] && unread[1] == data[off + 1] && unread[2] == data[off + 2] && unread[3] == data[off + 3];
      var length := data[off] as int * 65536 + data[off + 1] as int * 256 + data[off + 2] as int;
      need := 0;
      if length == 0 { return Bad(ZeroLength); }
      if length > MAX_FRAME_SIZE { return Bad(TooLarge); }
      var total := 3 + length;
      if len - off < total {
        need := total;
        return NeedMore;
      }
      var flag := data[off + 3];
      var compression := CompressionOf(flag);
      if compression.None? { return Bad(UnknownCompression); }
      var payload := data[off + 4..off + total];
      assert payload == unread[4..total] by {
        assert forall j | 0 <= j < |payload| :: payload[j] == data[off + 4 + j] == unread[4 + j];
      }
      var status: Option<nat> := None;
      if IsTerminal(flag) {
        if |payload| < 2 { return Bad(MissingStatus); }
        var code: nat := payload[0] as int * 256 + payload[1] as int;
        status := Some(code);
        payload := payload[2..];
      }
      off := off + total;
      if off == len { len, off := 0, 0; }
      p := Got(Frame(IsTerminal(flag), compression.value, status, payload, IsReconnectAdvised(flag)), total);
      assert Unread() == unread[total..];
    }

    method HasData() returns (b: bool)
      requires Valid()
      ensures b <==> Unread() != []
    {
      b := len > off;
    }
  }

  datatype FrameResult = Next(frame: Frame) | Invalid(err: FrameError) | AtEnd(end: ReadError) | UnexpectedEnd

  /** What ReadFrame must answer when `b` are the remaining bytes, `after` those left behind and `end`
      how the stream ends. */
  ghost predicate Answers(end: ReadError, b: seq<Byte>, r: FrameResult, after: seq<Byte>) {
    match ParseOne(b)
    case Got(f, n) => r == Next(f) && after == b[n..]
    case Bad(e) => r == Invalid(e) && after == b
    case NeedMore => after == b && r == if end == EndOfFile && b != [] then UnexpectedEnd else AtEnd(end)
  }

  /** One answer is one step of the one-pass parse. */
  lemma AnswerParses(end: ReadError, b: seq<Byte>, r: FrameResult, after: seq<Byte>)
    requires Answers(end, b, r, after)
    ensures r.Next? ==> ParseAll(b) == Stream([r.frame] + ParseAll(after).frames, ParseAll(after).end) && |after| < |b|
    ensures !r.Next? ==> ParseAll(b).frames == []
    ensures !r.Next? ==> match ParseAll(b).end
              case Malformed(e) => r == Invalid(e)
              case Clean => r == AtEnd(end)
              case Truncated => r == if end == EndOfFile then UnexpectedEnd else AtEnd(end)
  {
  }


  class FrameReader {
    const reader: Source
    const parser: Parser
    var pendingErr: Option<ReadError>

    ghost predicate Valid()
      reads this, reader, parser, parser.data
    {
      && parser.Valid()
      && parser.data.Length < 2 * LARGEST_FRAME
      && (pendingErr.Some? <==> reader.ended)
      && (pendingErr.Some? ==> pendingErr.value == reader.end && reader.rest == [])
    }

    /** Every byte not yet turned into a frame. */
    ghost function Remaining(): seq<Byte>
      reads this, reader, parser, parser.data
      requires Valid()
    {
      parser.Unread() + reader.rest
    }

    constructor (reader: Source)
      requires !reader.ended
      ensures Valid() && this.reader == reader && fresh(parser) && fresh(parser.data)
      ensures Remaining() == reader.rest
    {
      this.reader := reader;
      parser := new Parser();
      pendingErr := None;
    }

    method EndError() returns (r: FrameResult)
      requires Valid() && pendingErr.Some?
      ensures r == if pendingErr.value == EndOfFile && Remaining() != [] then UnexpectedEnd else AtEnd(pendingErr.value)
    {
      var more := parser.HasData();
      r := if pendingErr.value == EndOfFile && more then UnexpectedEnd else AtEnd(pendingErr.value);
    }

    /** Parse what is buffered; a decision made there is the decision for all remaining bytes. */
    method TryBuffered() returns (p: Parsed)
      requires Valid()
      modifies parser`len, parser`off, parser`need
      ensures Valid() && parser.data == old(parser.data)
      ensures !p.NeedMore? ==> p == ParseOne(old(Remaining()))
      ensures p.Got? ==> Remaining() == old(Remaining())[p.size..]
      ensures !p.Got? ==> Remaining() == old(Remaining())
      ensures p.NeedMore? ==> ParseOne(parser.Unread()).NeedMore? && (parser.need == 0 ==> |parser.Unread()| < 4)
    {
      hide ParseOne;
      ghost var unread, rest := parser.Unread(), reader.rest;
      p := parser.ParseFrame();
      if !p.NeedMore? { ParseIgnoresRest(unread, rest); }
      if p.Got? { assert (unread + rest)[p.size..] == unread[p.size..] + rest; }
    }

    /** One read into the buffer; `stuck` when it delivered nothing but the stream's end. */
    method ReadMore() returns (stuck: bool)
      requires Valid() && pendingErr.None? && ParseOne(parser.Unread()).NeedMore? && (parser.need == 0 ==> |parser.Unread()| < 4)
      modifies this, reader, parser, parser.data
      ensures Valid() && Remaining() == old(Remaining()) && reader.Work() < old(reader.Work())
      ensures parser.data == old(parser.data) || fresh(parser.data)
      ensures stuck ==> pendingErr.Some? && parser.Unread() == old(parser.Unread()) == Remaining()
    {
      hide ParseOne;
      ghost var unread := parser.Unread();
      var n, err := parser.ReadFrom(reader);
      pendingErr := err;
      stuck := err.Some? && n == 0;
      if stuck { assert parser.Unread() == parser.Unread() + reader.rest == unread + []; }
    }

    /** The next frame is decided by the remaining bytes alone, however the reads cut them up. The
        buffer stays below twice the largest frame. */
    method ReadFrame() returns (r: FrameResult)
      requires Valid()
      modifies this, reader, parser, parser.data
      ensures Valid()
      ensures parser.data == old(parser.data) || fresh(parser.data)
      ensures Answers(reader.end, old(Remaining()), r, Remaining())
    {
      hide ParseOne;
      ghost var b := Remaining();
      while true
        invariant Valid() && Remaining() == b
        invariant parser.data == old(parser.data) || fresh(parser.data)
        decreases reader.Work()
      {
        var p := TryBuffered();
        if p.Bad? { return Invalid(p.err); }
        if p.Got? { return Next(p.frame); }
        if pendingErr.Some? {
          assert b == parser.Unread();
          r := EndError();
          return;
        }
        var stuck := ReadMore();
        if stuck {
          r := EndError();
          return;
        }
      }
    }

    /** Reading to the end yields exactly the frames of the one-pass parse, and its ending. */
    method ReadAll() returns (frames: seq<Frame>, last: FrameResult)
      requires Valid()
      modifies this, reader, parser, parser.data
      ensures frames == ParseAll(old(Remaining())).frames
      ensures match ParseAll(old(Remaining())).end
              case Malformed(e) => last == Invalid(e)
              case Clean => last == AtEnd(reader.end)
              case Truncated => last == if reader.end == EndOfFile then UnexpectedEnd else AtEnd(reader.end)
    {
      hide *;
      ghost var b := Remaining();
      frames := [];
      while true
        invariant Valid()
        invariant parser.data == old(parser.data) || fresh(parser.data)
        invariant ParseAll(b) == Stream(frames + ParseAll(Remaining()).frames, ParseAll(Remaining()).end)
        decreases |Remaining()|
      {
        ghost var before := Remaining();
        last := ReadFrame();
        AnswerParses(reader.end, before, last, Remaining());
        if last.Next? {
          frames := frames + [last.frame];
        } else {
          return;
        }
      }
    }
  }

  /** Two readers over the same bytes agree frame by frame, however each stream is cut into reads. */
  method ChunkingDoesNotMatter(stream: seq<Byte>, cuts1: seq<nat>, cuts2: seq<nat>, end: ReadError, early1: bool, early2: bool)
    returns (frames1: seq<Frame>, last1: FrameResult, frames2: seq<Frame>, last2: FrameResult)
    ensures frames1 == frames2 == ParseAll(stream).frames && last1 == last2
    ensures last1 == AtEnd(EndOfFile) ==> ParseAll(stream).end == Clean
  {
    var source1 := new Source(stream, cuts1, end, early1);
    var reader1 := new FrameReader(source1);
    frames1, last1 := reader1.ReadAll();
    var source2 := new Source(stream, cuts2, end, early2);
    var reader2 := new FrameReader(source2);
    frames2, last2 := reader2.ReadAll();
  }
}
