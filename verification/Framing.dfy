/** The S2S frame format: a one-pass parse of a byte string and the encoder (internal/framing/framing.go). */
module Framing {
  import opened Options

  type Byte = x: int | 0 <= x < 256

  const MAX_FRAME_SIZE: int := 2 * 1024 * 1024
  const COMPRESSION_THRESHOLD: int := 1024

  datatype Compression = NoCompression | Zstd | Gzip

  datatype Frame = Frame(terminal: bool, compression: Compression, status: Option<nat>, body: seq<Byte>, reconnectAdvised: bool)

  datatype FrameError = ZeroLength | TooLarge | UnknownCompression | MissingStatus

  datatype Parsed = NeedMore | Bad(err: FrameError) | Got(frame: Frame, size: nat)

  /** The three-byte big-endian length prefix. */
  function Length(b: seq<Byte>): (n: nat)
    requires |b| >= 3
    ensures n < 0x100_0000
  {
    b[0] as int * 65536 + b[1] as int * 256 + b[2] as int
  }

  function Code(c: Compression): nat {
    match c case NoCompression => 0 case Zstd => 1 case Gzip => 2
  }

  predicate IsTerminal(flag: Byte) { flag >= 128 }

  function CompressionOf(flag: Byte): Option<Compression> {
    var bits := (flag / 32) % 4;
    if bits == 0 then Some(NoCompression) else if bits == 1 then Some(Zstd)
    else if bits == 2 then Some(Gzip) else None
  }

  predicate IsReconnectAdvised(flag: Byte) { !IsTerminal(flag) && (flag / 16) % 2 == 1 }

  /** What the first bytes of `b` are: an incomplete frame, an invalid one, or a frame and its size. */
  function ParseOne(b: seq<Byte>): (r: Parsed)
    ensures r.Got? ==> 4 <= r.size <= |b|
  {
    if |b| < 4 then NeedMore
    else if Length(b) == 0 then Bad(ZeroLength)
    else if Length(b) > MAX_FRAME_SIZE then Bad(TooLarge)
    else if |b| < 3 + Length(b) then NeedMore
    else ParseBody(b[3], b[4..3 + Length(b)], 3 + Length(b))
  }

  function ParseBody(flag: Byte, payload: seq<Byte>, size: nat): (r: Parsed)
    ensures !r.NeedMore? && (r.Got? ==> r.size == size)
  {
    if CompressionOf(flag).None? then Bad(UnknownCompression)
    else if !IsTerminal(flag) then Got(Frame(false, CompressionOf(flag).value, None, payload, IsReconnectAdvised(flag)), size)
    else if |payload| < 2 then Bad(MissingStatus)
    else Got(Frame(true, CompressionOf(flag).value, Some(payload[0] as int * 256 + payload[1] as int), payload[2..], false), size)
  }

  datatype StreamEnd = Clean | Truncated | Malformed(err: FrameError)

  datatype Stream = Stream(frames: seq<Frame>, end: StreamEnd)

  /** The one-pass parse of a whole byte stream. */
  function ParseAll(b: seq<Byte>): Stream
    decreases |b|
  {
    match ParseOne(b)
    case NeedMore => Stream([], if b == [] then Clean else Truncated)
    case Bad(e) => Stream([], Malformed(e))
    case Got(f, n) => var rest := ParseAll(b[n..]); Stream([f] + rest.frames, rest.end)
  }

  /** A decision, once possible, does not depend on the bytes that follow. */
  lemma ParseIgnoresRest(b: seq<Byte>, more: seq<Byte>)
    requires !ParseOne(b).NeedMore?
    ensures ParseOne(b + more) == ParseOne(b)
  {
    assert (b + more)[..3] == b[..3];
    if 0 < Length(b) <= MAX_FRAME_SIZE {
      assert (b + more)[4..3 + Length(b)] == b[4..3 + Length(b)];
    }
  }

  // ---- the encoder ----

  /** Flag byte plus, on terminal frames, the status code, plus the data. */
  function PayloadLength(data: seq<Byte>, terminal: bool): nat {
    1 + (if terminal then 2 else 0) + |data|
  }

  function Prefix(n: nat): (r: seq<Byte>)
    ensures |r| == 3
  {
    [(n / 65536) % 256, (n / 256) % 256, n % 256]
  }

  function Flag(terminal: bool, c: Compression): Byte {
    (if terminal then 128 else 0) + 32 * Code(c)
  }

  function StatusBytes(status: int): (r: seq<Byte>)
    ensures |r| == 2
  {
    [(status % 65536) / 256, (status % 65536) % 256]
  }

  /** A frame around data that is already compressed as `c`. */
  function Encode(data: seq<Byte>, terminal: bool, c: Compression, status: int): seq<Byte> {
    Prefix(PayloadLength(data, terminal)) + [Flag(terminal, c)] + (if terminal then StatusBytes(status) else []) + data
  }

  /** The compressors are functions outside this model; None is a compression failure. */
  type Compressor = seq<Byte> -> Option<seq<Byte>>

  function Chosen(data: seq<Byte>, c: Compression, zstd: Compressor, gzip: Compressor): (seq<Byte>, Compression) {
    if c == NoCompression || |data| < COMPRESSION_THRESHOLD then (data, NoCompression)
    else
      var packed := if c == Zstd then zstd(data) else gzip(data);
      if packed.Some? then (packed.value, c) else (data, NoCompression)
  }

  function CreateFrameWithStatus(data: seq<Byte>, terminal: bool, c: Compression, status: int,
                                 zstd: Compressor, gzip: Compressor): seq<Byte> {
    var (packed, actual) := Chosen(data, c, zstd, gzip);
    Encode(packed, terminal, actual, status)
  }

  lemma ThreeBytes(n: nat)
    ensures (n / 65536) % 256 * 65536 + (n / 256) % 256 * 256 + n % 256 == n % 0x100_0000
  {
    var a := n / 256;
    var b := a / 256;
    var c := b / 256;
    assert n == 256 * a + n % 256 && a == 256 * b + a % 256 && b == 256 * c + b % 256;
    assert n / 65536 == b by { Quotient(n, 65536, b, 256 * (a % 256) + n % 256); }
    Quotient(n, 0x100_0000, c, 65536 * (b % 256) + 256 * (a % 256) + n % 256);
  }

  lemma Quotient(n: int, d: int, q: int, r: int)
    requires d > 0 && n == d * q + r && 0 <= r < d
    ensures n / d == q && n % d == r
  {
    var e := n / d - q;
    assert n == d * (n / d) + n % d;
    assert d * e == r - n % d;
    Multiples(d, e);
  }

  lemma Multiples(d: int, e: int)
    requires d > 0
    ensures e > 0 ==> d * e >= d
    ensures e < 0 ==> d * e <= -d
  {
  }

  lemma LengthOfPrefix(n: nat, b: seq<Byte>)
    requires |b| >= 3 && b[..3] == Prefix(n)
    ensures Length(b) == n % 0x100_0000
  {
    assert b[0] == Prefix(n)[0] && b[1] == Prefix(n)[1] && b[2] == Prefix(n)[2];
    ThreeBytes(n);
  }

  function Sent(data: seq<Byte>, terminal: bool, c: Compression, status: int): Frame {
    Frame(terminal, c, if terminal then Some(status % 65536) else None, data, false)
  }

  lemma FlagParses(terminal: bool, c: Compression)
    ensures IsTerminal(Flag(terminal, c)) == terminal
    ensures CompressionOf(Flag(terminal, c)) == Some(c)
    ensures !IsReconnectAdvised(Flag(terminal, c))
  {
  }

  lemma BodyParses(data: seq<Byte>, terminal: bool, c: Compression, status: int, size: nat)
    ensures ParseBody(Flag(terminal, c), (if terminal then StatusBytes(status) else []) + data, size) == Got(Sent(data, terminal, c, status), size)
  {
    FlagParses(terminal, c);
    hide Flag, IsTerminal, CompressionOf, IsReconnectAdvised;
    if terminal {
      assert (StatusBytes(status) + data)[2..] == data;
    } else {
      assert [] + data == data;
    }
  }

  lemma Parts(prefix: seq<Byte>, flag: Byte, body: seq<Byte>, rest: seq<Byte>)
    requires |prefix| == 3
    ensures var b := prefix + [flag] + body + rest;
            |b| == 4 + |body| + |rest| && b[..3] == prefix && b[3] == flag && b[4..4 + |body|] == body
  {
  }

  /** The layout of an encoded frame followed by anything. */
  lemma Layout(data: seq<Byte>, terminal: bool, c: Compression, status: int, rest: seq<Byte>)
    ensures var n := PayloadLength(data, terminal);
            var e := Encode(data, terminal, c, status);
            && |e| == 3 + n && |e + rest| == 3 + n + |rest| && (e + rest)[..3] == Prefix(n) && (e + rest)[3] == Flag(terminal, c)
            && (e + rest)[4..3 + n] == (if terminal then StatusBytes(status) else []) + data
  {
    var n := PayloadLength(data, terminal);
    var body := (if terminal then StatusBytes(status) else []) + data;
    var e := Encode(data, terminal, c, status);
    assert e == Prefix(n) + [Flag(terminal, c)] + body;
    hide Encode, Prefix, Flag, StatusBytes;
    Parts(Prefix(n), Flag(terminal, c), body, rest);
  }

  lemma ParseOfLength(b: seq<Byte>, n: nat)
    requires 1 <= n <= MAX_FRAME_SIZE && 4 <= 3 + n <= |b| && Length(b) == n
    ensures ParseOne(b) == ParseBody(b[3], b[4..3 + n], 3 + n)
  {
    hide Length, ParseBody;
  }

  lemma WrongLength(b: seq<Byte>, n: nat, f: Frame)
    requires n > MAX_FRAME_SIZE
    ensures ParseOne(b) != Got(f, 3 + n)
  {
    hide Length, ParseBody;
  }

  /** An encoded frame, whatever follows it, parses back to its contents if and only if it fits the
      2 MiB limit. */
  lemma EncodeParsesIff(data: seq<Byte>, terminal: bool, c: Compression, status: int, rest: seq<Byte>)
    ensures ParseOne(Encode(data, terminal, c, status) + rest) ==
              Got(Sent(data, terminal, c, status), |Encode(data, terminal, c, status)|)
            <==> PayloadLength(data, terminal) <= MAX_FRAME_SIZE
  {
    hide Encode, Prefix, Flag, ParseBody, StatusBytes, Sent, ParseOne, Length;
    var n := PayloadLength(data, terminal);
    var b := Encode(data, terminal, c, status) + rest;
    Layout(data, terminal, c, status, rest);
    if n <= MAX_FRAME_SIZE {
      LengthOfPrefix(n, b);
      ParseOfLength(b, n);
      BodyParses(data, terminal, c, status, 3 + n);
    } else {
      WrongLength(b, n, Sent(data, terminal, c, status));
    }
  }

  /** The full encoder: the parsed frame carries the terminal flag, status and body back; the body is
      the data itself, or what the compressor made of it. */
  lemma CreateFrameRoundTrip(data: seq<Byte>, terminal: bool, c: Compression, status: int,
                             zstd: Compressor, gzip: Compressor, rest: seq<Byte>)
    ensures var (packed, actual) := Chosen(data, c, zstd, gzip);
            var e := CreateFrameWithStatus(data, terminal, c, status, zstd, gzip);
            ParseOne(e + rest) == Got(Sent(packed, terminal, actual, status), |e|) <==>
              PayloadLength(packed, terminal) <= MAX_FRAME_SIZE
    ensures var (packed, actual) := Chosen(data, c, zstd, gzip);
            || (actual == NoCompression && packed == data)
            || (actual == Zstd && zstd(data) == Some(packed))
            || (actual == Gzip && gzip(data) == Some(packed))
  {
    var (packed, actual) := Chosen(data, c, zstd, gzip);
    EncodeParsesIff(packed, terminal, actual, status, rest);
  }

  /** The compression that is used: the one asked for, from 1 KiB on and unless it fails. */
  lemma CompressesIff(data: seq<Byte>, c: Compression, zstd: Compressor, gzip: Compressor)
    ensures var (packed, actual) := Chosen(data, c, zstd, gzip);
            && (c != NoCompression && |data| >= 1024 && (if c == Zstd then zstd(data) else gzip(data)).Some? ==>
                  actual == c && Some(packed) == if c == Zstd then zstd(data) else gzip(data))
            && (c == NoCompression || |data| < 1024 || (if c == Zstd then zstd(data) else gzip(data)).None? ==>
                  actual == NoCompression && packed == data)
  {
  }

  // ---- frames of the server ----

  /** A regular frame as the server writes it: advice to reconnect is bit 4 of the flag byte, and the four
      bits below are anything. */
  function ServerFrame(data: seq<Byte>, c: Compression, advised: bool, low: nat): seq<Byte>
    requires low < 16
  {
    Prefix(1 + |data|) + [32 * Code(c) + (if advised then 16 else 0) + low] + data
  }

  /** Terminal frames carry no advice, whatever the bit says. */
  function ServerTerminal(data: seq<Byte>, c: Compression, bit: bool, low: nat, status: nat): seq<Byte>
    requires low < 16 && status < 65536
  {
    Prefix(3 + |data|) + [128 + 32 * Code(c) + (if bit then 16 else 0) + low] + StatusBytes(status) + data
  }

  lemma FlagBits(terminal: bool, c: Compression, bit: bool, low: nat)
    requires low < 16
    ensures var flag: Byte := (if terminal then 128 else 0) + 32 * Code(c) + (if bit then 16 else 0) + low;
            IsTerminal(flag) == terminal && CompressionOf(flag) == Some(c) && IsReconnectAdvised(flag) == (!terminal && bit)
  {
  }

  lemma ServerLayout(n: nat, flag: Byte, body: seq<Byte>, rest: seq<Byte>)
    requires n == 1 + |body| <= MAX_FRAME_SIZE
    ensures ParseOne(Prefix(n) + [flag] + body + rest) == ParseBody(flag, body, 3 + n)
  {
    hide Prefix, ParseBody, ParseOne;
    var b := Prefix(n) + [flag] + body + rest;
    Parts(Prefix(n), flag, body, rest);
    LengthOfPrefix(n, b);
    ParseOfLength(b, n);
  }

  /** Advice arrives exactly as sent on a regular frame, and never on a terminal one. */
  lemma AdviceParses(data: seq<Byte>, c: Compression, advised: bool, low: nat, status: nat, rest: seq<Byte>)
    requires low < 16 && status < 65536 && 3 + |data| <= MAX_FRAME_SIZE
    ensures ParseOne(ServerFrame(data, c, advised, low) + rest) == Got(Frame(false, c, None, data, advised), 4 + |data|)
    ensures ParseOne(ServerTerminal(data, c, advised, low, status) + rest) == Got(Frame(true, c, Some(status), data, false), 6 + |data|)
  {
    hide Prefix, ParseOne, Length;
    FlagBits(false, c, advised, low);
    FlagBits(true, c, advised, low);
    var flag: Byte := 32 * Code(c) + (if advised then 16 else 0) + low;
    ServerLayout(1 + |data|, flag, data, rest);
    var body := StatusBytes(status) + data;
    ServerLayout(3 + |data|, 128 + flag, body, rest);
    assert ServerTerminal(data, c, advised, low, status) + rest == Prefix(3 + |data|) + [128 + flag] + body + rest;
    assert body[2..] == data;
    hide IsTerminal, CompressionOf, IsReconnectAdvised;
  }

  datatype Message = Message(data: seq<Byte>, terminal: bool, compression: Compression, status: int)

  function EncodeMessages(ms: seq<Message>): seq<Byte> {
    if ms == [] then []
    else Encode(ms[0].data, ms[0].terminal, ms[0].compression, ms[0].status) + EncodeMessages(ms[1..])
  }

  function SentFrames(ms: seq<Message>): (r: seq<Frame>)
    ensures |r| == |ms|
  {
    seq(|ms|, i requires 0 <= i < |ms| => Sent(ms[i].data, ms[i].terminal, ms[i].compression, ms[i].status))
  }

  lemma NothingParses()
    ensures ParseAll([]) == Stream([], Clean)
  {
  }

  /** Any sequence of frames within the limit survives the wire and ends on a frame boundary. */
  lemma {:induction false} StreamRoundTrip(ms: seq<Message>)
    requires forall i | 0 <= i < |ms| :: PayloadLength(ms[i].data, ms[i].terminal) <= MAX_FRAME_SIZE
    ensures ParseAll(EncodeMessages(ms)) == Stream(SentFrames(ms), Clean)
  {
    hide Encode, Sent, ParseOne, PayloadLength;
    NothingParses();
    if ms != [] {
      var m := ms[0];
      var e := Encode(m.data, m.terminal, m.compression, m.status);
      EncodeParsesIff(m.data, m.terminal, m.compression, m.status, EncodeMessages(ms[1..]));
      assert EncodeMessages(ms)[|e|..] == EncodeMessages(ms[1..]);
      StreamRoundTrip(ms[1..]);
      assert SentFrames(ms) == [Sent(m.data, m.terminal, m.compression, m.status)] + SentFrames(ms[1..]);
    }
  }

  /** The encoder as the source writes it: an exactly sized array filled header first. */
  method BuildFrame(data: seq<Byte>, terminal: bool, c: Compression, status: int) returns (frame: array<Byte>)
    ensures fresh(frame) && frame[..] == Encode(data, terminal, c, status)
  {
    var flag := Flag(terminal, c);
    var headerLen := if terminal then 6 else 4;
    var payloadLen := headerLen - 3 + |data|;
    frame := new Byte[headerLen + |data|];
    frame[0] := (payloadLen / 65536) % 256;
    frame[1] := (payloadLen / 256) % 256;
    frame[2] := payloadLen % 256;
    frame[3] := flag;
    if terminal {
      frame[4] := (status % 65536) / 256;
      frame[5] := (status % 65536) % 256;
    }
    ghost var header := Prefix(payloadLen) + [flag] + (if terminal then StatusBytes(status) else []);
    assert frame[..headerLen] == header;
    for i := 0 to |data|
      invariant frame[..headerLen] == header
      invariant forall j | 0 <= j < i :: frame[headerLen + j] == data[j]
    {
      frame[headerLen + i] := data[i];
    }
    assert frame[..] == frame[..headerLen] + frame[headerLen..];
    assert frame[headerLen..] == data;
  }

  /** The uncompressed path of MarshalProtoFrame: the message is appended after a four-byte gap whose
      length bytes are filled in afterwards. */
  method MarshalUncompressed(message: seq<Byte>, zstd: Compressor, gzip: Compressor) returns (frame: seq<Byte>)
    ensures frame == CreateFrameWithStatus(message, false, NoCompression, 0, zstd, gzip)
  {
    frame := [0, 0, 0, 0] + message;
    var payloadLen := |frame| - 3;
    frame := frame[0 := (payloadLen / 65536) % 256];
    frame := frame[1 := (payloadLen / 256) % 256];
    frame := frame[2 := payloadLen % 256];
    assert frame == Prefix(payloadLen) + [0] + [] + message;
  }
}
