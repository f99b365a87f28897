/** Records, their metered size, and the append input checks
    (s2/append_utils.go, s2/types.go, s2/stream.go). */
module Records {
  import opened Options
  import opened Framing

  datatype Header = Header(name: seq<Byte>, value: seq<Byte>)

  datatype AppendRecord = AppendRecord(timestamp: Option<nat>, headers: seq<Header>, body: seq<Byte>)

  datatype SequencedRecord = SequencedRecord(seqNum: nat, timestamp: nat, headers: seq<Header>, body: seq<Byte>)

  datatype AppendInput = AppendInput(records: seq<AppendRecord>, matchSeqNum: Option<nat>, fencingToken: Option<seq<Byte>>)

  const MAX_BATCH_RECORDS: nat := 1000
  const MAX_BATCH_METERED_BYTES: nat := 1024 * 1024
  const MAX_FENCING_TOKEN_LENGTH: nat := 36

  function HeaderBytes(hs: seq<Header>): nat {
    if hs == [] then 0 else |hs[0].name| + |hs[0].value| + HeaderBytes(hs[1..])
  }

  /** 8 bytes per record, 2 per header, plus names, values and body. */
  function Metered(hs: seq<Header>, body: seq<Byte>): (n: nat)
    ensures n >= 8
  {
    8 + 2 * |hs| + HeaderBytes(hs) + |body|
  }

  function RecordBytes(r: AppendRecord): (n: nat)
    ensures n >= 8
  {
    Metered(r.headers, r.body)
  }

  function ReadBytes(r: SequencedRecord): (n: nat)
    ensures n >= 8
  {
    Metered(r.headers, r.body)
  }

  function BatchBytes(rs: seq<AppendRecord>): nat {
    if rs == [] then 0 else RecordBytes(rs[0]) + BatchBytes(rs[1..])
  }

  function TotalBytes(rs: seq<SequencedRecord>): nat {
    if rs == [] then 0 else ReadBytes(rs[0]) + TotalBytes(rs[1..])
  }

  lemma {:induction false} HeaderBytesSnoc(hs: seq<Header>, h: Header)
    ensures HeaderBytes(hs + [h]) == HeaderBytes(hs) + |h.name| + |h.value|
  {
    if hs == [] {
      assert ([] + [h])[1..] == [];
    } else {
      assert (hs + [h])[1..] == hs[1..] + [h];
      HeaderBytesSnoc(hs[1..], h);
    }
  }

  lemma {:induction false} BatchBytesAppend(a: seq<AppendRecord>, b: seq<AppendRecord>)
    ensures BatchBytes(a + b) == BatchBytes(a) + BatchBytes(b)
  {
    if a == [] {
      assert a + b == b;
    } else {
      assert (a + b)[1..] == a[1..] + b;
      BatchBytesAppend(a[1..], b);
    }
  }

  lemma {:induction false} TotalBytesAppend(a: seq<SequencedRecord>, b: seq<SequencedRecord>)
    ensures TotalBytes(a + b) == TotalBytes(a) + TotalBytes(b)
  {
    if a == [] {
      assert a + b == b;
    } else {
      assert (a + b)[1..] == a[1..] + b;
      TotalBytesAppend(a[1..], b);
    }
  }

  /** The metering loop over a record's headers. */
  method MeterRecord(headers: seq<Header>, body: seq<Byte>) returns (n: nat)
    ensures n == Metered(headers, body)
  {
    var headersSize := 0;
    for i := 0 to |headers|
      invariant headersSize == HeaderBytes(headers[..i])
    {
      headersSize := headersSize + |headers[i].name| + |headers[i].value|;
      assert headers[..i + 1] == headers[..i] + [headers[i]];
      HeaderBytesSnoc(headers[..i], headers[i]);
    }
    assert headers[..|headers|] == headers;
    n := 8 + 2 * |headers| + headersSize + |body|;
  }

  method MeterBatch(records: seq<AppendRecord>) returns (n: nat)
    ensures n == BatchBytes(records)
  {
    n := 0;
    for i := 0 to |records|
      invariant n == BatchBytes(records[..i])
    {
      var b := MeterRecord(records[i].headers, records[i].body);
      n := n + b;
      assert records[..i + 1] == records[..i] + [records[i]];
      BatchBytesAppend(records[..i], [records[i]]);
      assert BatchBytes([records[i]]) == RecordBytes(records[i]) by { assert [records[i]][1..] == []; }
    }
    assert records[..|records|] == records;
  }

  /** What `validateAppendInput` accepts. */
  predicate ValidInput(input: AppendInput) {
    && 1 <= |input.records| <= MAX_BATCH_RECORDS
    && (input.fencingToken.Some? ==> |input.fencingToken.value| <= MAX_FENCING_TOKEN_LENGTH)
    && BatchBytes(input.records) <= MAX_BATCH_METERED_BYTES
  }

  /** The input may be nil. None is a validation error; otherwise the metered size. */
  method ValidateAppendInput(input: Option<AppendInput>) returns (size: Option<nat>)
    ensures size.Some? <==> input.Some? && ValidInput(input.value)
    ensures size.Some? ==> size.value == BatchBytes(input.value.records) >= 8 * |input.value.records|
  {
    if input.None? { return None; }
    var records, token := input.value.records, input.value.fencingToken;
    if |records| == 0 || |records| > MAX_BATCH_RECORDS { return None; }
    if token.Some? && |token.value| > MAX_FENCING_TOKEN_LENGTH { return None; }
    var n := MeterBatch(records);
    if n > MAX_BATCH_METERED_BYTES { return None; }
    EachRecordWeighs(records);
    return Some(n);
  }

  lemma {:induction false} EachRecordWeighs(rs: seq<AppendRecord>)
    ensures BatchBytes(rs) >= 8 * |rs|
  {
    if rs != [] { EachRecordWeighs(rs[1..]); }
  }

  predicate IsCommand(r: SequencedRecord) {
    |r.headers| == 1 && |r.headers[0].name| == 0
  }

  function WithoutCommands(rs: seq<SequencedRecord>): seq<SequencedRecord> {
    if rs == [] then []
    else if IsCommand(rs[|rs| - 1]) then WithoutCommands(rs[..|rs| - 1])
    else WithoutCommands(rs[..|rs| - 1]) + [rs[|rs| - 1]]
  }

  lemma {:induction false} WithoutCommandsAppend(a: seq<SequencedRecord>, b: seq<SequencedRecord>)
    ensures WithoutCommands(a + b) == WithoutCommands(a) + WithoutCommands(b)
    decreases |b|
  {
    if b == [] {
      assert a + b == a;
    } else {
      assert (a + b)[..|a + b| - 1] == a + b[..|b| - 1];
      WithoutCommandsAppend(a, b[..|b| - 1]);
    }
  }

  /** `filterCommandRecords`: compaction of the slice in place, keeping order. */
  method FilterCommandRecords(a: array<SequencedRecord>) returns (n: nat)
    modifies a
    ensures n <= a.Length && a[..n] == WithoutCommands(old(a[..]))
  {
    n := 0;
    for i := 0 to a.Length
      invariant n <= i
      invariant a[..n] == WithoutCommands(old(a[..i]))
      invariant a[i..] == old(a[i..])
    {
      assert a[i] == a[i..][0] == old(a[i..])[0] == old(a[i]);
      assert old(a[..i + 1]) == old(a[..i]) + [old(a[i])];
      ghost var later := a[i + 1..];
      assert later == a[i..][1..] == old(a[i..])[1..] == old(a[i + 1..]);
      if !IsCommand(a[i]) {
        ghost var kept := a[..n];
        a[n] := a[i];
        assert a[..n] == kept;
        assert a[..n + 1] == a[..n] + [old(a[i])];
        n := n + 1;
      }
      assert a[i + 1..] == later;
    }
    assert old(a[..a.Length]) == old(a[..]);
  }
}
