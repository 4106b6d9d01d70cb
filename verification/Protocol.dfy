/** TDX1 records and handshake messages (src/protocol/protocol.cpp:10-122). */
module Protocol {
  import opened Bytes
  import opened Errors

  const MAX_RECORD: nat := 0x100000
  const MAGIC: bytes := [0x54, 0x44, 0x58, 0x31]  // "TDX1"
  const TEXT: byte := 1
  const PING: byte := 2
  const PONG: byte := 3
  const CLOSE: byte := 4

  datatype Record = Record(typ: byte, sealed: bytes)

  predicate Fits(r: Record) { |r.sealed| <= MAX_RECORD - 1 }

  function RecordBytes(r: Record): (b: bytes)
    ensures |b| == 5 + |r.sealed|
  {
    PutBE(4, 1 + |r.sealed|) + [r.typ] + r.sealed
  }

  /** What read_record makes of the bytes at hand: a record and the rest, too few bytes, or a length
      it refuses. */
  datatype Parsed = Got(rec: Record, rest: bytes) | Short | Malformed

  function Parse(b: bytes): Parsed {
    if |b| < 4 then Short
    else
      var n := GetBE(b[..4]);
      if n == 0 || n > MAX_RECORD then Malformed
      else if |b| < 4 + n then Short
      else Got(Record(b[4], b[5..4 + n]), b[4 + n..])
  }

  /** The first `k` bytes, or all of them. */
  function Upto(b: bytes, k: nat): bytes { if k < |b| then b[..k] else b }

  /** A stream with its unread input and its written output. Reading past the input fails; a write
      that needs more than the `room` left puts out what it can and fails. */
  class ByteStream {
    var input: bytes
    var output: bytes
    var room: nat

    constructor (input: bytes, room: nat)
      ensures this.input == input && output == [] && this.room == room
    {
      this.input, output, this.room := input, [], room;
    }

    method ReadExact(n: nat) returns (r: Result<bytes, ConnErr>)
      modifies this
      ensures output == old(output) && room == old(room)
      ensures n <= |old(input)| ==> r == Ok(old(input)[..n]) && input == old(input)[n..]
      ensures n > |old(input)| ==> r == Err(Closed) && input == old(input)
    {
      if n > |input| {
        return Err(Closed);
      }
      r, input := Ok(input[..n]), input[n..];
    }

    method WriteAll(b: bytes) returns (ec: Option<ConnErr>)
      modifies this
      ensures input == old(input) && output == old(output) + Upto(b, old(room))
      ensures ec == if |b| <= old(room) then None else Some(IoError)
      ensures room == if |b| <= old(room) then old(room) - |b| else 0
    {
      if |b| > room {
        output, room := output + b[..room], 0;
        return Some(IoError);
      }
      output, room := output + b, room - |b|;
      ec := None;
    }
  }

  method WriteRecord(rw: ByteStream, r: Record) returns (ec: Option<ConnErr>)
    modifies rw
    ensures rw.input == old(rw.input)
    ensures Fits(r) ==> rw.output == old(rw.output) + Upto(RecordBytes(r), old(rw.room))
    ensures Fits(r) ==> ec == if |RecordBytes(r)| <= old(rw.room) then None else Some(IoError)
    ensures !Fits(r) ==> ec == Some(BadRecord) && rw.output == old(rw.output)
  {
    if |r.sealed| > MAX_RECORD - 1 {
      return Some(BadRecord);
    }
    var len, hdr := PutBE(4, 1 + |r.sealed|), [r.typ];
    assert RecordBytes(r) == len + hdr + r.sealed;
    hide Upto, RecordBytes;
    WriteTwice(rw.output, len, hdr, rw.room);
    WriteTwice(rw.output, len + hdr, r.sealed, rw.room);
    ec := rw.WriteAll(len);
    if ec.Some? {
      return;
    }
    ec := rw.WriteAll(hdr);
    if ec.Some? {
      return;
    }
    ec := rw.WriteAll(r.sealed);
  }

  /** Writing `a` and then `b` is writing them together. */
  lemma WriteTwice(out: bytes, a: bytes, b: bytes, k: nat)
    ensures |a| <= k ==> out + Upto(a, k) + Upto(b, k - |a|) == out + Upto(a + b, k)
    ensures k < |a| ==> Upto(a, k) == Upto(a + b, k)
  {
    if |a| <= k { assert Upto(a + b, k) == a + Upto(b, k - |a|); }
  }

  method ReadRecord(rw: ByteStream) returns (r: Result<Record, ConnErr>)
    modifies rw
    ensures rw.output == old(rw.output) && rw.room == old(rw.room)
    ensures match Parse(old(rw.input))
            case Got(rec, rest) => r == Ok(rec) && rw.input == rest
            case Short => r == Err(Closed)
            case Malformed => r == Err(BadRecord)
  {
    ghost var b := rw.input;
    var len := rw.ReadExact(4);
    if len.Err? {
      return Err(len.error);
    }
    var n := GetBE(len.value);
    if n == 0 || n > MAX_RECORD {
      return Err(BadRecord);
    }
    var payload := rw.ReadExact(n);
    if payload.Err? {
      return Err(payload.error);
    }
    assert b[4..][..n] == b[4..4 + n] && b[4..][n..] == b[4 + n..];
    r := Ok(Record(payload.value[0], payload.value[1..]));
  }

  // ---------- whole streams ----------

  function Stream(rs: seq<Record>): bytes {
    if rs == [] then [] else RecordBytes(rs[0]) + Stream(rs[1..])
  }

  predicate AllFit(rs: seq<Record>) { forall i :: 0 <= i < |rs| ==> Fits(rs[i]) }

  /** Everything a reader gets out of `b`, and whether it stopped on a refused length. */
  function ParseAll(b: bytes): (seq<Record>, bool)
    decreases |b|
  {
    match Parse(b)
    case Got(rec, rest) => var (rs, bad) := ParseAll(rest); ([rec] + rs, bad)
    case Short => ([], false)
    case Malformed => ([], true)
  }

  /** A written record is read back, whatever follows it. */
  lemma ParseWritten(r: Record, rest: bytes)
    requires Fits(r)
    ensures Parse(RecordBytes(r) + rest) == Got(r, rest)
  {
    var n := 1 + |r.sealed|;
    var b := RecordBytes(r) + rest;
    assert b[..4] == PutBE(4, n);
    assert Pow256(4) == 0x1_0000_0000;
    GetPut(4, n);
    assert b[5..4 + n] == r.sealed;
    assert b[4 + n..] == rest;
  }

  /** A record is its length as four big-endian bytes, its type, and the sealed bytes. */
  lemma RecordLayout(r: Record)
    requires Fits(r)
    ensures var b := RecordBytes(r);
            && b[0] as int * 0x100_0000 + b[1] as int * 0x1_0000 + b[2] as int * 0x100 + b[3] as int == 1 + |r.sealed|
            && b[4] == r.typ && b[5..] == r.sealed
  {
    BigEndian(1 + |r.sealed|);
    var b := RecordBytes(r);
    assert b[..4] == PutBE(4, 1 + |r.sealed|);
    assert forall i :: 0 <= i < 4 ==> b[i] == b[..4][i];
  }

  /** A length of zero or above 2^20 is refused, and nothing else is; too few bytes are waited for. */
  lemma LengthRefused(b: bytes)
    ensures Parse(b).Malformed? <==> |b| >= 4 && !(1 <= GetBE(b[..4]) <= 0x10_0000)
    ensures Parse(b).Short? <==> |b| < 4 || (1 <= GetBE(b[..4]) <= 0x10_0000 && |b| < 4 + GetBE(b[..4]))
  {
  }

  /** A cut inside the first record yields nothing: never a different record, never an error. */
  lemma ParseCut(r: Record, rest: bytes, k: nat)
    requires Fits(r) && k < |RecordBytes(r)|
    ensures Parse((RecordBytes(r) + rest)[..k]) == Short
  {
    var n := 1 + |r.sealed|;
    var b := (RecordBytes(r) + rest)[..k];
    if k >= 4 {
      assert b[..4] == PutBE(4, n);
      assert Pow256(4) == 0x1_0000_0000;
      GetPut(4, n);
    }
  }

  /** Reading is the inverse of writing: whatever is accepted is exactly what was there. */
  lemma ParseIsExact(b: bytes)
    requires Parse(b).Got?
    ensures Fits(Parse(b).rec) && b == RecordBytes(Parse(b).rec) + Parse(b).rest
  {
    PutGet(b[..4]);
    var n := GetBE(b[..4]);
    assert b == b[..4] + [b[4]] + b[5..4 + n] + b[4 + n..];
  }

  lemma {:induction false} StreamSplit(rs: seq<Record>, m: nat)
    requires m <= |rs|
    ensures Stream(rs) == Stream(rs[..m]) + Stream(rs[m..])
  {
    if m > 0 {
      StreamSplit(rs[1..], m - 1);
      assert rs[..m][1..] == rs[1..][..m - 1] && rs[1..][m - 1..] == rs[m..];
    } else {
      assert rs[..0] == [] && rs[0..] == rs;
    }
  }

  /** How many records of `rs` lie entirely within the first `k` bytes of their stream. */
  function Contained(rs: seq<Record>, k: nat): nat {
    if rs == [] || k < |RecordBytes(rs[0])| then 0 else 1 + Contained(rs[1..], k - |RecordBytes(rs[0])|)
  }

  /** Any byte prefix of a written stream parses to exactly the records it contains in full, and then
      runs short; the whole stream parses to the whole list. */
  lemma {:induction false} PrefixOfStream(rs: seq<Record>, k: nat)
    requires AllFit(rs) && k <= |Stream(rs)|
    ensures Contained(rs, k) <= |rs|
    ensures ParseAll(Stream(rs)[..k]) == (rs[..Contained(rs, k)], false)
    ensures k == |Stream(rs)| ==> Contained(rs, k) == |rs|
  {
    var b := Stream(rs)[..k];
    if rs == [] {
      assert b == [];
    } else {
      var r, rest, n := rs[0], Stream(rs[1..]), |RecordBytes(rs[0])|;
      if k < n {
        ParseCut(r, rest, k);
      } else {
        assert b == RecordBytes(r) + rest[..k - n];
        ParseWritten(r, rest[..k - n]);
        PrefixOfStream(rs[1..], k - n);
        assert [r] + rs[1..][..Contained(rs[1..], k - n)] == rs[..Contained(rs, k)];
      }
    }
  }

  // ---------- handshake messages ----------

  predicate SupportsVersion(v: nat) { v == 1 }

  function HelloBytes(version: nat, pub: bytes): bytes { MAGIC + PutBE(2, version) + pub }

  datatype Hello = Hello(version: nat, pub: bytes)

  function ParseHello(b: bytes): Result<Hello, ConnErr> {
    if |b| < 4 then Err(Closed)
    else if b[..4] != MAGIC then Err(BadHandshake)
    else if |b| < 6 then Err(Closed)
    else if !SupportsVersion(GetBE(b[4..6])) then Err(UnsupportedProtocol)
    else if |b| < 38 then Err(Closed)
    else Ok(Hello(GetBE(b[4..6]), b[6..38]))
  }

  method WriteHandshake(rw: ByteStream, version: nat, pub: bytes) returns (ec: Option<ConnErr>)
    modifies rw
    ensures rw.input == old(rw.input)
    ensures ec == if !SupportsVersion(version) then Some(UnsupportedProtocol)
                  else if |pub| != 32 then Some(BadHandshake)
                  else if |HelloBytes(version, pub)| <= old(rw.room) then None else Some(IoError)
    ensures rw.output == old(rw.output) + if SupportsVersion(version) && |pub| == 32
                                          then Upto(HelloBytes(version, pub), old(rw.room)) else []
  {
    if !SupportsVersion(version) {
      return Some(UnsupportedProtocol);
    }
    if |pub| != 32 {
      return Some(BadHandshake);
    }
    WriteTwice(rw.output, MAGIC + PutBE(2, version), pub, rw.room);
    ec := rw.WriteAll(MAGIC + PutBE(2, version));
    if ec.Some? {
      return;
    }
    ec := rw.WriteAll(pub);
  }

  method ReadHandshake(rw: ByteStream) returns (r: Result<Hello, ConnErr>)
    modifies rw
    ensures rw.output == old(rw.output) && rw.room == old(rw.room)
    ensures r == ParseHello(old(rw.input))
    ensures r.Ok? ==> |old(rw.input)| >= 38 && rw.input == old(rw.input)[38..]
  {
    ghost var b := rw.input;
    var magic := rw.ReadExact(4);
    if magic.Err? {
      return Err(magic.error);
    }
    if magic.value != MAGIC {
      return Err(BadHandshake);
    }
    var ver := rw.ReadExact(2);
    if ver.Err? {
      return Err(ver.error);
    }
    assert ver.value == b[4..6];
    var version := GetBE(ver.value);
    if !SupportsVersion(version) {
      return Err(UnsupportedProtocol);
    }
    var pub := rw.ReadExact(32);
    if pub.Err? {
      return Err(pub.error);
    }
    assert pub.value == b[6..38];
    r := Ok(Hello(version, pub.value));
  }

  /** A hello is read back, and only a complete one is accepted. */
  lemma HelloBack(version: nat, pub: bytes, k: nat)
    requires SupportsVersion(version) && |pub| == 32 && k <= 38
    ensures |HelloBytes(version, pub)| == 38
    ensures ParseHello(HelloBytes(version, pub)[..k]) == if k == 38 then Ok(Hello(version, pub)) else Err(Closed)
  {
    hide HelloBytes;
    HelloLayout(version, pub);
    var h := HelloBytes(version, pub);
    var b := h[..k];
    if k >= 4 { assert b[..4] == h[..4]; }
    if k >= 6 { assert b[4..6] == h[4..6]; }
    if k == 38 { assert b[6..38] == h[6..38]; }
  }

  lemma HelloLayout(version: nat, pub: bytes)
    requires SupportsVersion(version) && |pub| == 32
    ensures var h := HelloBytes(version, pub);
            |h| == 38 && h[..4] == [0x54, 0x44, 0x58, 0x31] && GetBE(h[4..6]) == version && h[6..38] == pub
  {
    var v := PutBE(2, version);
    var h := MAGIC + v + pub;
    assert |MAGIC| == 4 && |v| == 2;
    assert h[..4] == MAGIC;
    assert h[4..6] == v;
    assert h[6..38] == pub;
    assert Pow256(2) == 0x10000;
    GetPut(2, version);
  }

  /** Which hello is accepted, and which error any other gets: wrong magic, another version, or too short. */
  lemma HelloOutcome(b: bytes)
    ensures ParseHello(b).Ok? <==> |b| >= 38 && b[..4] == [0x54, 0x44, 0x58, 0x31] && b[4] == 0 && b[5] == 1
    ensures ParseHello(b) == Err(BadHandshake) <==> |b| >= 4 && b[..4] != [0x54, 0x44, 0x58, 0x31]
    ensures ParseHello(b) == Err(UnsupportedProtocol) <==>
              |b| >= 6 && b[..4] == [0x54, 0x44, 0x58, 0x31] && !(b[4] == 0 && b[5] == 1)
    ensures ParseHello(b).Ok? ==> ParseHello(b).value == Hello(1, b[6..38])
    ensures ParseHello(b) in {Err(BadHandshake), Err(UnsupportedProtocol), Err(Closed)} || ParseHello(b).Ok?
  {
    if |b| >= 6 {
      var v := b[4..6];
      assert v[..1][..0] == [] && v[..1][0] == b[4] && v[1] == b[5];
      assert GetBE(v) == GetBE(v[..1]) * 256 + b[5] as int && GetBE(v[..1]) == b[4] as int;
    }
  }
}
