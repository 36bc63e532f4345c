/** The trace stream: records printed one after the other, each with a newline behind it, and read
    back by a loop that takes one newline-ended chunk more whenever decoding fails. */
module Trace {
  import opened Wrappers

  type Byte = b: nat | b < 256

  /** Port name and traced value, both as bytes. */
  datatype Record = Record(port: seq<Byte>, value: seq<Byte>)

  const NEWLINE: Byte := 0x0A
  const MAX_RETRY := 10

  // ------------------------------------------------------------ codec

  /** `k` bytes, least significant first. */
  function Little(n: nat, k: nat): (s: seq<Byte>)
    ensures |s| == k
  {
    if k == 0 then [] else [n % 256] + Little(n / 256, k - 1)
  }

  function Number(s: seq<Byte>): nat {
    if s == [] then 0 else s[0] + 256 * Number(s[1..])
  }

  function Pow256(k: nat): nat { if k == 0 then 1 else 256 * Pow256(k - 1) }

  lemma {:induction false} NumberOfLittle(n: nat, k: nat)
    requires n < Pow256(k)
    ensures Number(Little(n, k)) == n
  {
    if k > 0 {
      NumberOfLittle(n / 256, k - 1);
      assert Little(n, k)[1..] == Little(n / 256, k - 1);
    }
  }

  /** A byte string with its length as a 64-bit number in front. */
  function Prefixed(s: seq<Byte>): seq<Byte> { Little(|s|, 8) + s }

  function Encode(r: Record): (e: seq<Byte>)
    ensures |e| == 16 + |r.port| + |r.value|
  {
    Prefixed(r.port) + Prefixed(r.value)
  }

  /** A byte string and what is left, or None when the input ends too early. */
  function Field(s: seq<Byte>): Option<(seq<Byte>, seq<Byte>)> {
    if |s| < 8 || Number(s[..8]) > |s| - 8 then None
    else
      var n := Number(s[..8]);
      Some((s[8..8 + n], s[8 + n..]))
  }

  /** Bytes left over are ignored. */
  function Decode(s: seq<Byte>): Option<Record> {
    match Field(s)
    case None => None
    case Some((port, rest)) =>
      match Field(rest)
      case None => None
      case Some((value, _)) => Some(Record(port, value))
  }

  predicate Fits(r: Record) { |r.port| < Pow256(8) && |r.value| < Pow256(8) }

  lemma LengthFirst(f: seq<Byte>, tail: seq<Byte>, n: nat)
    requires |f| < Pow256(8) && 8 <= n <= |f| + 8 + |tail|
    ensures Number((Prefixed(f) + tail)[..n][..8]) == |f|
  {
    hide Little, Number;
    NumberOfLittle(|f|, 8);
    assert (Prefixed(f) + tail)[..n][..8] == Little(|f|, 8);
  }

  lemma Slices(f: seq<Byte>, tail: seq<Byte>, n: nat)
    requires |f| + 8 <= n <= |f| + 8 + |tail|
    ensures var s := (Prefixed(f) + tail)[..n]; s[8..8 + |f|] == f && s[8 + |f|..] == tail[..n - |f| - 8]
  {
    var length := Little(|f|, 8);
    hide Little;
    assert (Prefixed(f) + tail)[..n] == length + (f + tail[..n - |f| - 8]);
  }

  lemma FieldOfPrefixed(f: seq<Byte>, tail: seq<Byte>, n: nat)
    requires |f| < Pow256(8) && n <= |f| + 8 + |tail|
    ensures Field((Prefixed(f) + tail)[..n]) == if n < |f| + 8 then None else Some((f, tail[..n - |f| - 8]))
  {
    hide Little, Number;
    if n >= 8 {
      LengthFirst(f, tail, n);
      if n >= |f| + 8 {
        Slices(f, tail, n);
      }
    }
  }

  /** No proper prefix of an encoding decodes; the encoding with anything behind it decodes to its record. */
  lemma DecodePrefix(r: Record, tail: seq<Byte>, n: nat)
    requires Fits(r) && n <= |Encode(r)| + |tail|
    ensures Decode((Encode(r) + tail)[..n]) == if n < |Encode(r)| then None else Some(r)
  {
    var rest := Prefixed(r.value) + tail;
    assert Encode(r) + tail == Prefixed(r.port) + rest;
    FieldOfPrefixed(r.port, rest, n);
    if n >= |r.port| + 8 {
      FieldOfPrefixed(r.value, tail, n - |r.port| - 8);
    }
  }

  // ------------------------------------------------------------ printer

  function Print(records: seq<Record>): seq<Byte> {
    if records == [] then [] else Encode(records[0]) + [NEWLINE] + Print(records[1..])
  }

  lemma ConcatAssoc(x: seq<Byte>, y: seq<Byte>, z: seq<Byte>)
    ensures (x + y) + z == x + (y + z)
  {
  }

  lemma {:induction false} PrintMore(a: seq<Record>, b: seq<Record>)
    ensures Print(a + b) == Print(a) + Print(b)
  {
    hide Encode;
    if a == [] {
      assert a + b == b;
    } else {
      PrintMore(a[1..], b);
      assert (a + b)[1..] == a[1..] + b;
      ConcatAssoc(Encode(a[0]) + [NEWLINE], Print(a[1..]), Print(b));
    }
  }

  /** The macro appends to the writer record by record. */
  method PrintAll(records: seq<Record>) returns (wtr: seq<Byte>)
    ensures wtr == Print(records)
  {
    hide Encode;
    wtr := [];
    var i := 0;
    assert records[..|records|] == records;
    while i < |records|
      invariant 0 <= i <= |records| && wtr == Print(records[..i])
    {
      PrintMore(records[..i], [records[i]]);
      assert records[..i + 1] == records[..i] + [records[i]];
      assert Print([records[i]]) == Encode(records[i]) + [NEWLINE];
      wtr := wtr + Encode(records[i]);
      wtr := wtr + [NEWLINE];
      i := i + 1;
    }
  }

  // ------------------------------------------------------------ reader

  type Table = map<seq<Byte>, seq<seq<Byte>>>

  function Add(t: Table, r: Record): Table {
    t[r.port := (if r.port in t then t[r.port] else []) + [r.value]]
  }

  function AddAll(t: Table, records: seq<Record>): Table
    decreases |records|
  {
    if records == [] then t else AddAll(Add(t, records[0]), records[1..])
  }

  /** What read_until takes: up to the first newline and with it, or all that is left. */
  function ChunkLen(s: seq<Byte>): (n: nat)
    requires s != []
    ensures 1 <= n <= |s| && (n == |s| || s[n - 1] == NEWLINE) && forall i :: 0 <= i < n - 1 ==> s[i] != NEWLINE
  {
    if s[0] == NEWLINE || |s| == 1 then 1 else 1 + ChunkLen(s[1..])
  }

  datatype Outcome = Failed | Parsed(table: Table)

  function Read(stream: seq<Byte>, buf: seq<Byte>, retry: nat, success: nat, t: Table): Outcome
    decreases |stream|
  {
    if stream == [] then Parsed(t)
    else
      var n := ChunkLen(stream);
      var full := (if retry == 0 then [] else buf) + stream[..n];
      match Decode(full)
      case Some(r) => Read(stream[n..], full, 0, success + 1, Add(t, r))
      case None =>
        if retry + 1 > MAX_RETRY then if success > 0 then Parsed(t) else Failed
        else Read(stream[n..], full, retry + 1, success, t)
  }

  /** One round of the reader, when the buffer holds a whole round of retries. */
  lemma ReadRound(stream: seq<Byte>, buf: seq<Byte>, retry: nat, success: nat, t: Table)
    requires stream != [] && (retry == 0 ==> buf == [])
    ensures var n := ChunkLen(stream); var full := buf + stream[..n];
      Read(stream, buf, retry, success, t) ==
      match Decode(full)
      case Some(r) => Read(stream[n..], full, 0, success + 1, Add(t, r))
      case None =>
        if retry + 1 > MAX_RETRY then if success > 0 then Parsed(t) else Failed
        else Read(stream[n..], full, retry + 1, success, t)
  {
    hide Decode, ChunkLen, Add;
    assert (if retry == 0 then [] else buf) == buf;
  }

  /** What the buffer held before does not matter after a success. */
  lemma Afresh(stream: seq<Byte>, buf: seq<Byte>, success: nat, t: Table)
    ensures Read(stream, buf, 0, success, t) == Read(stream, [], 0, success, t)
  {
  }

  lemma AtEnd(buf: seq<Byte>, retry: nat, success: nat, t: Table)
    ensures Read([], buf, retry, success, t) == Parsed(t)
  {
  }

  method ReadTrace(file: seq<Byte>) returns (r: Outcome)
    ensures r == Read(file, [], 0, 0, map[])
  {
    var t: Table := map[];
    var buf: seq<Byte> := [];
    var bincodeRetry, bincodeSuccess := 0, 0;
    var rest := file;
    hide Decode, Add, Read;
    while true
      invariant 0 <= bincodeRetry && 0 <= bincodeSuccess
      invariant Read(file, [], 0, 0, map[]) == Read(rest, buf, bincodeRetry, bincodeSuccess, t)
      decreases |rest|
    {
      if bincodeRetry == 0 {
        Afresh(rest, buf, bincodeSuccess, t);
        buf := [];
      }
      if |rest| == 0 {
        AtEnd(buf, bincodeRetry, bincodeSuccess, t);
        break;
      }
      ReadRound(rest, buf, bincodeRetry, bincodeSuccess, t);
      var n := ChunkLen(rest);
      buf := buf + rest[..n];
      rest := rest[n..];
      var decoded := Decode(buf);
      match decoded {
        case Some(record) =>
          bincodeRetry := 0;
          bincodeSuccess := bincodeSuccess + 1;
          t := Add(t, record);
        case None =>
          bincodeRetry := bincodeRetry + 1;
          if bincodeRetry > MAX_RETRY {
            if bincodeSuccess > 0 {
              break;
            } else {
              return Failed;
            }
          }
      }
    }
    r := Parsed(t);
  }

  // ------------------------------------------------------------ one record

  function Newlines(s: seq<Byte>): nat {
    if s == [] then 0 else (if s[|s| - 1] == NEWLINE then 1 else 0) + Newlines(s[..|s| - 1])
  }

  lemma {:induction false} NoNewlines(s: seq<Byte>)
    requires forall i :: 0 <= i < |s| ==> s[i] != NEWLINE
    ensures Newlines(s) == 0
  {
    if s != [] {
      NoNewlines(s[..|s| - 1]);
    }
  }

  lemma {:induction false} NewlinesAppend(a: seq<Byte>, b: seq<Byte>)
    ensures Newlines(a + b) == Newlines(a) + Newlines(b)
  {
    if b == [] {
      assert a + b == a;
    } else {
      var m := |b| - 1;
      NewlinesAppend(a, b[..m]);
      assert (a + b)[..|a + b| - 1] == a + b[..m];
    }
  }

  /** The next chunk adds one newline if it is not the last of the stream. */
  lemma ChunkNewlines(buf: seq<Byte>, stream: seq<Byte>)
    requires stream != [] && ChunkLen(stream) < |stream|
    ensures Newlines(buf + stream[..ChunkLen(stream)]) == Newlines(buf) + 1
  {
    var c := stream[..ChunkLen(stream)];
    NewlinesAppend(buf, c);
    NoNewlines(c[..|c| - 1]);
  }

  predicate Clean(r: Record) { Fits(r) && Encode(r)[|Encode(r)| - 1] != 0x0A }

  /** The reader has `buf`, a part of a record that ends with its last newline so far, and the rest
      of that record and of the stream before it. */
  predicate Midway(e: seq<Byte>, tail: seq<Byte>, stream: seq<Byte>, buf: seq<Byte>, retry: nat) {
    && buf + stream == e + tail && |buf| < |e|
    && retry == Newlines(buf) && (retry == 0 ==> buf == [])
    && (buf != [] ==> buf[|buf| - 1] == NEWLINE)
  }

  lemma ChunkInRecord(e: seq<Byte>, tail: seq<Byte>, stream: seq<Byte>, buf: seq<Byte>)
    requires buf + stream == e + ([NEWLINE] + tail) && |buf| < |e| && e[|e| - 1] != NEWLINE
    ensures stream != []
    ensures var n := ChunkLen(stream);
      && |buf| + n <= |e| + 1 && |buf| + n != |e| && stream[n - 1] == NEWLINE
      && (|buf| + n == |e| + 1 ==> forall i :: |buf| <= i < |e| ==> e[i] != NEWLINE)
  {
    hide ChunkLen;
    var whole := e + ([NEWLINE] + tail);
    var n := ChunkLen(stream);
    assert forall i :: 0 <= i < |stream| ==> stream[i] == whole[|buf| + i];
    assert whole[|e|] == NEWLINE && whole[|e| - 1] == e[|e| - 1];
    assert stream[|e| - |buf|] == NEWLINE;
    forall i | |buf| <= i < |e| && |buf| + n == |e| + 1
      ensures e[i] != NEWLINE
    {
      assert stream[i - |buf|] == e[i];
    }
  }

  /** Where the record goes on, its next chunk is either another part of it, or all of it and the newline. */
  lemma NextChunk(e: seq<Byte>, tail: seq<Byte>, stream: seq<Byte>, buf: seq<Byte>, retry: nat)
    requires Midway(e, [NEWLINE] + tail, stream, buf, retry) && e[|e| - 1] != NEWLINE
    ensures stream != []
    ensures var n := ChunkLen(stream); var full := buf + stream[..n];
      && full == (e + ([NEWLINE] + tail))[..|full|] && full + stream[n..] == e + ([NEWLINE] + tail)
      && if |full| < |e| then Midway(e, [NEWLINE] + tail, stream[n..], full, retry + 1) else |full| == |e| + 1 && retry == Newlines(e)
  {
    hide ChunkLen, Newlines;
    ChunkInRecord(e, tail, stream, buf);
    var whole := e + ([NEWLINE] + tail);
    var n := ChunkLen(stream);
    var full := buf + stream[..n];
    assert full + stream[n..] == whole;
    assert full == whole[..|full|];
    if |full| < |e| {
      ChunkNewlines(buf, stream);
    } else {
      LastPart(e, whole, buf);
    }
  }

  /** A record without newlines behind `buf` has those of `buf`. */
  lemma LastPart(e: seq<Byte>, whole: seq<Byte>, buf: seq<Byte>)
    requires e <= whole && buf <= whole && |buf| < |e| && forall i :: |buf| <= i < |e| ==> e[i] != NEWLINE
    ensures Newlines(e) == Newlines(buf)
  {
    var c := e[|buf|..];
    NoNewlines(c);
    NewlinesAppend(buf, c);
    assert e == buf + c;
  }

  /** A record with at most ten newlines is decoded, and the reader starts afresh behind it. With
      more, the reader stops there: an error unless a record came before. */
  lemma {:induction false} ReadRecord(r: Record, tail: seq<Byte>, stream: seq<Byte>, buf: seq<Byte>, retry: nat, success: nat, t: Table)
    requires Clean(r) && Midway(Encode(r), [NEWLINE] + tail, stream, buf, retry) && retry <= MAX_RETRY
    ensures Newlines(Encode(r)) <= 10 ==> Read(stream, buf, retry, success, t) == Read(tail, [], 0, success + 1, Add(t, r))
    ensures Newlines(Encode(r)) > 10 ==> Read(stream, buf, retry, success, t) == if success > 0 then Parsed(t) else Failed
    decreases |stream|
  {
    hide Encode, Decode, Newlines, Read, Add, ChunkLen;
    var e := Encode(r);
    NextChunk(e, tail, stream, buf, retry);
    ReadRound(stream, buf, retry, success, t);
    var n := ChunkLen(stream);
    var full := buf + stream[..n];
    DecodePrefix(r, [NEWLINE] + tail, |full|);
    if |full| < |e| {
      if retry + 1 <= MAX_RETRY {
        ReadRecord(r, tail, stream[n..], full, retry + 1, success, t);
      } else {
        PrefixNewlines(full, e);
      }
    } else {
      assert stream[n..] == tail;
      Afresh(tail, full, success + 1, Add(t, r));
    }
  }

  lemma PrefixNewlines(a: seq<Byte>, e: seq<Byte>)
    requires a <= e
    ensures Newlines(a) <= Newlines(e)
  {
    NewlinesAppend(a, e[|a|..]);
    assert e == a + e[|a|..];
  }

  // ------------------------------------------------------------ all records

  /** At most ten newline bytes before the last byte. */
  predicate Readable(r: Record) { Newlines(Encode(r)[..|Encode(r)| - 1]) <= 10 }

  lemma CleanReadable(r: Record)
    requires Clean(r)
    ensures Readable(r) <==> Newlines(Encode(r)) <= 10
  {
    var e := Encode(r);
    hide Encode;
    assert Newlines(e) == Newlines(e[..|e| - 1]);
  }

  predicate AllReadable(records: seq<Record>) { forall i :: 0 <= i < |records| ==> Readable(records[i]) }

  predicate AllClean(records: seq<Record>) { forall i :: 0 <= i < |records| ==> Clean(records[i]) }

  /** Behind no record but the last a newline can be taken for its end. */
  predicate CleanBeforeLast(records: seq<Record>) {
    && (forall i :: 0 <= i < |records| ==> Fits(records[i]))
    && (forall i :: 0 <= i < |records| - 1 ==> Clean(records[i]))
  }

  /** The records before the first that holds more than ten newline bytes before its last byte. */
  function BeforeUnreadable(records: seq<Record>): (good: seq<Record>)
    ensures good <= records && AllReadable(good)
    ensures |good| < |records| ==> !Readable(records[|good|])
  {
    if records == [] || !Readable(records[0]) then [] else [records[0]] + BeforeUnreadable(records[1..])
  }

  lemma {:induction false} ReadPrinted(records: seq<Record>, tail: seq<Byte>, success: nat, t: Table)
    requires AllClean(records) && AllReadable(records)
    ensures Read(Print(records) + tail, [], 0, success, t) == Read(tail, [], 0, success + |records|, AddAll(t, records))
    decreases |records|
  {
    hide Encode, Read, Newlines;
    if records == [] {
      assert Print(records) + tail == tail;
    } else {
      var r, rest := records[0], Print(records[1..]) + tail;
      assert Print(records) + tail == Encode(r) + ([NEWLINE] + rest);
      FirstPart(r, rest);
      ReadRecord(r, rest, Encode(r) + ([NEWLINE] + rest), [], 0, success, t);
      assert Readable(r);
      CleanReadable(r);
      ReadPrinted(records[1..], tail, success + 1, Add(t, r));
    }
  }

  lemma FirstPart(r: Record, rest: seq<Byte>)
    ensures Midway(Encode(r), [NEWLINE] + rest, Encode(r) + ([NEWLINE] + rest), [], 0)
  {
    assert [] + (Encode(r) + ([NEWLINE] + rest)) == Encode(r) + ([NEWLINE] + rest);
  }

  /** A record that ends with a newline is complete at that byte, one chunk before its delimiter. */
  lemma NextChunkDirty(e: seq<Byte>, stream: seq<Byte>, buf: seq<Byte>, retry: nat)
    requires Midway(e, [NEWLINE], stream, buf, retry) && e[|e| - 1] == NEWLINE
    ensures stream != []
    ensures var n := ChunkLen(stream); var full := buf + stream[..n];
      && full == (e + [NEWLINE])[..|full|] && full + stream[n..] == e + [NEWLINE] && |full| <= |e|
      && if |full| < |e| then Midway(e, [NEWLINE], stream[n..], full, retry + 1) else retry == Newlines(e[..|e| - 1])
  {
    hide ChunkLen, Newlines;
    var whole := e + [NEWLINE];
    var n := ChunkLen(stream);
    assert forall i :: 0 <= i < |stream| ==> stream[i] == whole[|buf| + i];
    assert stream[|e| - 1 - |buf|] == NEWLINE;
    var full := buf + stream[..n];
    assert full + stream[n..] == whole;
    assert full == whole[..|full|];
    if |full| < |e| {
      ChunkNewlines(buf, stream);
    } else {
      var front := e[..|e| - 1];
      assert forall i :: |buf| <= i < |front| ==> front[i] == stream[i - |buf|];
      LastBytes(front, buf);
    }
  }

  lemma LastBytes(front: seq<Byte>, buf: seq<Byte>)
    requires buf <= front && forall i :: |buf| <= i < |front| ==> front[i] != NEWLINE
    ensures Newlines(front) == Newlines(buf)
  {
    var c := front[|buf|..];
    NoNewlines(c);
    NewlinesAppend(buf, c);
    assert front == buf + c;
  }

  /** The left-over delimiter at the end of the stream changes nothing. */
  lemma LeftOver(buf: seq<Byte>, success: nat, t: Table)
    ensures Read([NEWLINE], buf, 0, success, t) == Parsed(t)
  {
    Afresh([NEWLINE], buf, success, t);
    ShortFails([NEWLINE]);
    RoundOn([NEWLINE], [], [], 0, success, t);
    assert [NEWLINE] + [] == [NEWLINE] && [] + [NEWLINE] == [NEWLINE];
  }

  /** The last record, when it ends with a newline: decoded and nothing lost, or the reader stops in it. */
  lemma {:induction false} ReadLastRecord(r: Record, stream: seq<Byte>, buf: seq<Byte>, retry: nat, success: nat, t: Table)
    requires Fits(r) && Encode(r)[|Encode(r)| - 1] == NEWLINE
    requires Midway(Encode(r), [NEWLINE], stream, buf, retry) && retry <= MAX_RETRY
    ensures Readable(r) ==> Read(stream, buf, retry, success, t) == Parsed(Add(t, r))
    ensures !Readable(r) ==> Read(stream, buf, retry, success, t) == if success > 0 then Parsed(t) else Failed
    decreases |stream|
  {
    hide Encode, Decode, Newlines, Read, Add, ChunkLen;
    var e := Encode(r);
    NextChunkDirty(e, stream, buf, retry);
    ReadRound(stream, buf, retry, success, t);
    var n := ChunkLen(stream);
    var full := buf + stream[..n];
    DecodePrefix(r, [NEWLINE], |full|);
    if |full| < |e| {
      if retry + 1 <= MAX_RETRY {
        ReadLastRecord(r, stream[n..], full, retry + 1, success, t);
      } else {
        assert full <= e[..|e| - 1];
        PrefixNewlines(full, e[..|e| - 1]);
      }
    } else {
      assert stream[n..] == [NEWLINE];
      LeftOver(full, success + 1, Add(t, r));
    }
  }

  /** The record at which the reader stops, whatever comes after it. */
  lemma StopsAt(r: Record, rest: seq<Byte>, success: nat, t: Table)
    requires !Readable(r) && Fits(r) && (Clean(r) || rest == [])
    ensures Read(Encode(r) + ([NEWLINE] + rest), [], 0, success, t) == if success > 0 then Parsed(t) else Failed
  {
    hide Encode, Read, Newlines;
    FirstPart(r, rest);
    if Clean(r) {
      CleanReadable(r);
      ReadRecord(r, rest, Encode(r) + ([NEWLINE] + rest), [], 0, success, t);
    } else {
      assert [NEWLINE] + rest == [NEWLINE];
      ReadLastRecord(r, Encode(r) + ([NEWLINE] + rest), [], 0, success, t);
    }
  }

  /** All of them are read, a last one that ends with a newline included. */
  lemma ReadAllOf(records: seq<Record>)
    requires CleanBeforeLast(records) && AllReadable(records)
    ensures Read(Print(records), [], 0, 0, map[]) == Parsed(AddAll(map[], records))
  {
    hide Encode, Read, Newlines, AddAll, Print, Readable, Fits;
    if AllClean(records) {
      ReadPrinted(records, [], 0, map[]);
      EmptyStream(|records|, AddAll(map[], records));
      assert Print(records) + [] == Print(records);
    } else {
      var front, last := records[..|records| - 1], records[|records| - 1];
      assert records == front + [last];
      PrintMore(front, [last]);
      PrintFirst([last]);
      EmptyStream(0, map[]);
      assert [last][1..] == [];
      FirstPart(last, []);
      assert Print([last]) == Encode(last) + ([NEWLINE] + []);
      ReadPrinted(front, Print([last]), 0, map[]);
      assert !Clean(last);
      ReadLastOne(last, |front|, AddAll(map[], front));
      AddLast(map[], front, last);
    }
  }

  lemma ReadLastOne(r: Record, success: nat, t: Table)
    requires Fits(r) && !Clean(r) && Readable(r)
    ensures Read(Encode(r) + ([NEWLINE] + []), [], 0, success, t) == Parsed(Add(t, r))
  {
    hide Encode, Read, Newlines, Add;
    FirstPart(r, []);
    assert [NEWLINE] + [] == [NEWLINE];
    ReadLastRecord(r, Encode(r) + ([NEWLINE] + []), [], 0, success, t);
  }

  lemma {:induction false} AddLast(t: Table, records: seq<Record>, last: Record)
    ensures AddAll(t, records + [last]) == Add(AddAll(t, records), last)
    decreases |records|
  {
    if records == [] {
      assert [] + [last] == [last] && [last][1..] == [];
    } else {
      AddLast(Add(t, records[0]), records[1..], last);
      assert (records + [last])[1..] == records[1..] + [last];
    }
  }

  /** The reader undoes the printer up to the first record with more than ten newline bytes before its last
      byte, and fails if that is the very first record. */
  lemma ReadUndoesPrint(records: seq<Record>)
    requires CleanBeforeLast(records)
    ensures var good := BeforeUnreadable(records);
      Read(Print(records), [], 0, 0, map[]) ==
      if good == [] && records != [] then Failed else Parsed(AddAll(map[], good))
  {
    hide Encode, Read, Newlines, AddAll, Print, Readable;
    var good := BeforeUnreadable(records);
    var bad := records[|good|..];
    assert records == good + bad;
    if bad == [] {
      assert good == records;
      ReadAllOf(records);
      EmptyStream(0, map[]);
    } else {
      var r, rest := bad[0], Print(bad[1..]);
      assert r == records[|good|];
      PrintMore(good, bad);
      PrintFirst(bad);
      assert AllClean(good);
      ReadPrinted(good, Print(bad), 0, map[]);
      EmptyStream(0, map[]);
      assert !Clean(r) ==> bad[1..] == [];
      StopsAt(r, rest, |good|, AddAll(map[], good));
    }
  }

  lemma EmptyStream(success: nat, t: Table)
    ensures Print([]) == [] && Read([], [], 0, success, t) == Parsed(t)
  {
  }

  lemma PrintFirst(records: seq<Record>)
    requires records != []
    ensures Print(records) == Encode(records[0]) + ([NEWLINE] + Print(records[1..]))
  {
  }

  // ------------------------------------------------------------ the table

  /** The values of one port, in printing order. */
  function Values(records: seq<Record>, port: seq<Byte>): seq<seq<Byte>> {
    if records == [] then []
    else (if records[0].port == port then [records[0].value] else []) + Values(records[1..], port)
  }

  /** The table holds, for each port, exactly its values in order. */
  lemma {:induction false} TableHoldsValues(t: Table, records: seq<Record>, port: seq<Byte>)
    ensures var u := AddAll(t, records);
      && (port in u <==> port in t || Values(records, port) != [])
      && (port in u ==> u[port] == (if port in t then t[port] else []) + Values(records, port))
    decreases |records|
  {
    if records != [] {
      TableHoldsValues(Add(t, records[0]), records[1..], port);
    }
  }

  lemma {:induction false} ValuesMore(a: seq<Record>, b: seq<Record>, port: seq<Byte>)
    ensures Values(a + b, port) == Values(a, port) + Values(b, port)
  {
    if a == [] {
      assert a + b == b;
    } else {
      assert (a + b)[1..] == a[1..] + b;
      ValuesMore(a[1..], b, port);
    }
  }

  /** All records come back exactly when none of them holds more than ten newline bytes before its last byte;
      only the last one may end with a newline itself. */
  lemma AllComeBackIff(records: seq<Record>)
    requires CleanBeforeLast(records)
    ensures Read(Print(records), [], 0, 0, map[]) == Parsed(AddAll(map[], records)) <==> AllReadable(records)
  {
    hide Encode, Read, Newlines, AddAll, Print, Readable;
    ReadUndoesPrint(records);
    var good := BeforeUnreadable(records);
    if |good| == |records| {
      assert good == records;
    } else {
      var port := records[|good|].port;
      var bad := records[|good|..];
      assert records == good + bad;
      ValuesMore(good, bad, port);
      assert Values(bad, port) != [] by { assert bad[0].port == port; }
      TableHoldsValues(map[], good, port);
      TableHoldsValues(map[], records, port);
      assert !Readable(records[|good|]);
    }
  }

  // ------------------------------------------------------------ limits

  function Chunks(s: seq<Byte>): nat { if s == [] then 0 else 1 + Chunks(s[ChunkLen(s)..]) }

  /** A stream that ends inside a record: nothing is decoded any more. */
  lemma {:induction false} ReadCutRecord(r: Record, stream: seq<Byte>, buf: seq<Byte>, retry: nat, success: nat, t: Table)
    requires Fits(r) && buf + stream < Encode(r) && retry <= MAX_RETRY && (retry == 0 ==> buf == [])
    ensures Read(stream, buf, retry, success, t) ==
      if success > 0 || retry + Chunks(stream) <= 10 then Parsed(t) else Failed
    decreases |stream|
  {
    hide Encode, Decode, ChunkLen;
    if stream != [] {
      var n := ChunkLen(stream);
      var full := buf + stream[..n];
      assert full + stream[n..] == buf + stream;
      assert (Encode(r) + [])[..|full|] == full;
      DecodePrefix(r, [], |full|);
      if retry + 1 <= MAX_RETRY {
        ReadCutRecord(r, stream[n..], full, retry + 1, success, t);
      }
    }
  }

  /** A simulation stopped while it printed its last record: after at least one complete record
      nothing else is lost; without one, the table is empty or the read fails, by the number of chunks. */
  lemma TruncatedLastRecord(records: seq<Record>, r: Record, n: nat)
    requires AllClean(records) && AllReadable(records) && Fits(r) && n < |Encode(r)|
    ensures Read(Print(records) + Encode(r)[..n], [], 0, 0, map[]) ==
      if records != [] || Chunks(Encode(r)[..n]) <= 10 then Parsed(AddAll(map[], records)) else Failed
  {
    hide Encode, Read, AddAll, Print, Chunks, AllReadable, AllClean, Fits;
    var cut := Encode(r)[..n];
    ReadPrinted(records, cut, 0, map[]);
    assert [] + cut == cut;
    ReadCutRecord(r, cut, [], 0, |records|, AddAll(map[], records));
  }

  lemma {:induction false} LittleZero(k: nat)
    ensures Little(0, k) == seq(k, _ => 0)
  {
    if k > 0 {
      LittleZero(k - 1);
      assert [0] + seq(k - 1, _ => 0) == seq(k, _ => 0 as Byte);
    }
  }

  lemma LittleSmall(n: nat)
    requires n < 256
    ensures Little(n, 8) == [n, 0, 0, 0, 0, 0, 0, 0] && Number([n, 0, 0, 0, 0, 0, 0, 0]) == n
  {
    LittleZero(7);
    assert Little(n, 8) == [n] + Little(0, 7);
    assert Pow256(8) >= 256 by {
      assert Pow256(8) == 256 * Pow256(7);
      PowPositive(7);
    }
    NumberOfLittle(n, 8);
  }

  lemma {:induction false} PowPositive(k: nat)
    ensures Pow256(k) >= 1
  {
    if k > 0 {
      PowPositive(k - 1);
    }
  }

  lemma ChunkIs(s: seq<Byte>, n: nat)
    requires 1 <= n <= |s| && s[n - 1] == NEWLINE && forall i :: 0 <= i < n - 1 ==> s[i] != NEWLINE
    ensures ChunkLen(s) == n
  {
  }

  /** An empty port name and the one-byte value 0x0A. */
  const ENDS_IN_NEWLINE := Record([], [NEWLINE])

  const LENGTH_ZERO: seq<Byte> := [0, 0, 0, 0, 0, 0, 0, 0]

  const LENGTH_ONE: seq<Byte> := [1, 0, 0, 0, 0, 0, 0, 0]

  const ITS_ENCODING: seq<Byte> := LENGTH_ZERO + (LENGTH_ONE + [NEWLINE])

  lemma ItsEncoding()
    ensures Encode(ENDS_IN_NEWLINE) == ITS_ENCODING
  {
    LittleSmall(0);
    LittleSmall(1);
    hide Little, Number;
    assert LENGTH_ZERO + [] == LENGTH_ZERO;
  }

  /** The delimiter left over from the record before makes the next record undecodable. */
  lemma Shifted(tail: seq<Byte>)
    requires |tail| <= 1
    ensures Decode([NEWLINE] + ITS_ENCODING + tail) == None
  {
    var s := [NEWLINE] + ITS_ENCODING + tail;
    LittleSmall(10);
    hide Number, Little;
    assert LENGTH_ZERO[..7] == [0, 0, 0, 0, 0, 0, 0];
    assert s[..8] == [NEWLINE] + LENGTH_ZERO[..7];
    assert s[..8] == [10, 0, 0, 0, 0, 0, 0, 0];
  }

  /** The rounds of the reader on two such records. */
  lemma FourRounds(e: seq<Byte>, r: Record)
    requires |e| > 0 && e[|e| - 1] == NEWLINE && (forall i :: 0 <= i < |e| - 1 ==> e[i] != NEWLINE) && Decode(e) == Some(r)
    requires Decode([NEWLINE]) == None && Decode([NEWLINE] + e) == None && Decode([NEWLINE] + e + [NEWLINE]) == None
    ensures Read(e + ([NEWLINE] + (e + [NEWLINE])), [], 0, 0, map[]) == Parsed(Add(map[], r))
  {
    hide Decode, Read, Add;
    var t := Add(map[], r);
    var one := [NEWLINE];
    RoundOn(e, one + (e + one), [], 0, 0, map[]);
    assert [] + e == e;
    Afresh(one + (e + one), e, 1, t);
    RoundOn(one, e + one, [], 0, 1, t);
    assert [] + one == one;
    RoundOn(e, one, one, 1, 1, t);
    RoundOn(one, [], one + e, 2, 1, t);
    assert one + [] == one;
    AtEnd(one + e + one, 3, 1, t);
  }

  lemma RoundOn(chunk: seq<Byte>, rest: seq<Byte>, buf: seq<Byte>, retry: nat, success: nat, t: Table)
    requires |chunk| > 0 && chunk[|chunk| - 1] == NEWLINE && forall i :: 0 <= i < |chunk| - 1 ==> chunk[i] != NEWLINE
    requires (retry == 0 ==> buf == []) && retry < MAX_RETRY
    ensures Read(chunk + rest, buf, retry, success, t) ==
      match Decode(buf + chunk)
      case Some(r) => Read(rest, buf + chunk, 0, success + 1, Add(t, r))
      case None => Read(rest, buf + chunk, retry + 1, success, t)
  {
    hide Decode, Read, Add;
    ChunkIs(chunk + rest, |chunk|);
    hide ChunkLen;
    ReadRound(chunk + rest, buf, retry, success, t);
    assert (chunk + rest)[..|chunk|] == chunk && (chunk + rest)[|chunk|..] == rest;
  }

  /** Without the restriction on the last byte the round trip fails: two records, each with a single
      newline byte, but at its end, come back as one. */
  lemma NewlineAtEndLosesRecord()
    ensures AllReadable([ENDS_IN_NEWLINE, ENDS_IN_NEWLINE])
    ensures Read(Print([ENDS_IN_NEWLINE, ENDS_IN_NEWLINE]), [], 0, 0, map[]) == Parsed(AddAll(map[], [ENDS_IN_NEWLINE]))
  {
    var r, e := ENDS_IN_NEWLINE, ITS_ENCODING;
    ItsEncoding();
    hide Encode, Decode, Read, Number, Little, Newlines;
    NoNewlines(e[..|e| - 1]);
    PrintFirst([r, r]);
    PrintFirst([r]);
    assert [r, r][1..] == [r] && [r][1..] == [];
    assert Print([r, r]) == e + ([NEWLINE] + (e + [NEWLINE]));
    DecodeSelf(r) by {
      PowPositive(7);
    }
    ShortFails([NEWLINE]);
    Shifted([]);
    assert [NEWLINE] + e + [] == [NEWLINE] + e;
    Shifted([NEWLINE]);
    FourRounds(e, r);
  }

  lemma DecodeSelf(r: Record)
    requires Fits(r)
    ensures Decode(Encode(r)) == Some(r)
  {
    DecodePrefix(r, [], |Encode(r)|);
    assert (Encode(r) + [])[..|Encode(r)|] == Encode(r);
  }

  lemma ShortFails(s: seq<Byte>)
    requires |s| < 8
    ensures Decode(s) == None
  {
  }
}
