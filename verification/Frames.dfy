/** The TFX1 frame codec (src/transfer/transfer.cpp:23-244).
    Strings are byte sequences, as std::string is in the source. */
module Frames {
  import opened Bytes
  import opened Errors

  type ID = s: bytes | |s| == 16 witness Zeros(16)
  type Hash = s: bytes | |s| == 32 witness Zeros(32)

  const ZERO_ID: ID := Zeros(16)
  const ZERO_HASH: Hash := Zeros(32)

  predicate IsZeroHash(h: Hash) { h == ZERO_HASH }

  datatype Meta = Meta(id: ID, name: bytes, size: int, hash: Hash)

  datatype Frame =
    | Offer(meta: Meta)
    | Accept(id: ID, offset: int)
    | Reject(id: ID, reason: bytes)
    | Chunk(id: ID, offset: int, data: bytes)
    | Ack(id: ID, offset: int)
    | Done(id: ID, ok: bool, hash: Hash)
    | Abort(id: ID, reason: bytes)

  const MAGIC: bytes := [0x54, 0x46, 0x58, 0x31]  // "TFX1"

  function Header(typ: byte, id: ID): (b: bytes)
    ensures |b| == 21 && b[..4] == MAGIC && b[4] == typ && b[5..21] == id
  {
    MAGIC + [typ] + id
  }

  function Cut16(s: bytes): (r: bytes)
    ensures |r| <= 0xffff
  {
    if |s| > 0xffff then s[..0xffff] else s
  }

  function EncodeOffer(m: Meta): Result<bytes, Err> {
    if m.size < 0 then Err(SizeMismatch)
    else if |m.name| > 0xffff then Err(BadFrame)
    else Ok(Header(1, m.id) + PutBE(8, ToU64(m.size)) + m.hash + PutBE(2, |m.name|) + m.name)
  }

  function EncodeText(typ: byte, id: ID, reason: bytes): bytes {
    var r := Cut16(reason);
    Header(typ, id) + PutBE(2, |r|) + r
  }

  function Encode(f: Frame): Result<bytes, Err> {
    match f
    case Offer(m) => EncodeOffer(m)
    case Accept(id, off) => Ok(Header(2, id) + PutBE(8, ToU64(off)))
    case Reject(id, reason) => Ok(EncodeText(3, id, reason))
    case Chunk(id, off, data) => Ok(Header(4, id) + PutBE(8, ToU64(off)) + data)
    case Ack(id, off) => Ok(Header(5, id) + PutBE(8, ToU64(off)))
    case Done(id, ok, hash) => Ok(Header(6, id) + [if ok then 1 else 0] + hash)
    case Abort(id, reason) => Ok(EncodeText(7, id, reason))
  }

  function DecodeOffer(b: bytes): Result<Frame, Err>
    requires |b| >= 5
  {
    if |b| < 63 then Err(BadFrame)
    else if |b| != 63 + GetBE(b[61..63]) then Err(BadFrame)
    else Ok(Offer(Meta(b[5..21], b[63..], FromU64(GetBE(b[21..29])), b[29..61])))
  }

  function DecodeText(b: bytes, reject: bool): Result<Frame, Err>
    requires |b| >= 5
  {
    if |b| < 23 then Err(BadFrame)
    else if |b| != 23 + GetBE(b[21..23]) then Err(BadFrame)
    else if reject then Ok(Reject(b[5..21], b[23..]))
    else Ok(Abort(b[5..21], b[23..]))
  }

  function Decode(b: bytes): Result<Frame, Err> {
    if |b| < 5 || b[..4] != MAGIC then Err(BadFrame)
    else if b[4] == 1 then DecodeOffer(b)
    else if b[4] == 2 then
      if |b| != 29 then Err(BadFrame) else Ok(Accept(b[5..21], FromU64(GetBE(b[21..29]))))
    else if b[4] == 3 then DecodeText(b, true)
    else if b[4] == 4 then
      if |b| < 29 then Err(BadFrame)
      else Ok(Chunk(b[5..21], FromU64(GetBE(b[21..29])), b[29..]))
    else if b[4] == 5 then
      if |b| != 29 then Err(BadFrame) else Ok(Ack(b[5..21], FromU64(GetBE(b[21..29]))))
    else if b[4] == 6 then
      if |b| != 54 then Err(BadFrame) else Ok(Done(b[5..21], b[21] != 0, b[22..54]))
    else if b[4] == 7 then DecodeText(b, false)
    else Err(BadFrame)
  }

  /** Frames whose numbers fit the 64-bit fields they are stored in. */
  predicate InRange(f: Frame) {
    match f
    case Offer(m) => IsI64(m.size)
    case Accept(_, off) => IsI64(off)
    case Chunk(_, off, _) => IsI64(off)
    case Ack(_, off) => IsI64(off)
    case _ => true
  }

  /** What a frame becomes on the wire: reasons are cut to 65535 bytes. */
  function Canonical(f: Frame): Frame {
    match f
    case Reject(id, reason) => Reject(id, Cut16(reason))
    case Abort(id, reason) => Abort(id, Cut16(reason))
    case _ => f
  }

  /** Header fields come back from any payload that starts with a header. */
  lemma HeaderBack(typ: byte, id: ID, rest: bytes)
    ensures var b := Header(typ, id) + rest;
            |b| >= 21 && b[..4] == MAGIC && b[4] == typ && b[5..21] == id && b[21..] == rest
  {
    var h := Header(typ, id);
    var b := h + rest;
    assert b[..4] == h[..4] && b[5..21] == h[5..21];
  }

  lemma TextBack(typ: byte, id: ID, reason: bytes)
    ensures var b, r := EncodeText(typ, id, reason), Cut16(reason);
            |b| == 23 + |r| && b[..4] == MAGIC && b[4] == typ && b[5..21] == id
            && GetBE(b[21..23]) == |r| && b[23..] == r
  {
    var r := Cut16(reason);
    HeaderBack(typ, id, PutBE(2, |r|) + r);
    var b := EncodeText(typ, id, reason);
    assert b == Header(typ, id) + (PutBE(2, |r|) + r);
    assert b[21..23] == b[21..][..2] == PutBE(2, |r|);
    assert b[23..] == b[21..][2..] == r;
    assert Pow256(2) == 0x10000;
    GetPut(2, |r|);
  }

  lemma NumberBack(typ: byte, id: ID, off: int, data: bytes)
    requires IsI64(off)
    ensures var b := Header(typ, id) + PutBE(8, ToU64(off)) + data;
            |b| == 29 + |data| && b[..4] == MAGIC && b[4] == typ && b[5..21] == id
            && FromU64(GetBE(b[21..29])) == off && b[29..] == data
  {
    var num := PutBE(8, ToU64(off));
    var b := Header(typ, id) + num + data;
    HeaderBack(typ, id, num + data);
    assert b == Header(typ, id) + (num + data);
    assert b[21..29] == b[21..][..8] == num;
    assert b[29..] == b[21..][8..] == data;
    I64Field(off);
  }

  lemma OfferBack(m: Meta)
    requires EncodeOffer(m).Ok? && IsI64(m.size)
    ensures Decode(EncodeOffer(m).value) == Ok(Offer(m))
  {
    var len := PutBE(2, |m.name|);
    var tail := m.hash + len + m.name;
    NumberBack(1, m.id, m.size, tail);
    var b := Header(1, m.id) + PutBE(8, ToU64(m.size)) + tail;
    assert EncodeOffer(m).value == b;
    assert b[29..61] == b[29..][..32] == m.hash;
    assert b[61..63] == b[29..][32..34] == len;
    assert b[63..] == b[29..][34..] == m.name;
    assert Pow256(2) == 0x10000;
    GetPut(2, |m.name|);
  }

  lemma DoneBack(id: ID, ok: bool, hash: Hash)
    ensures Decode(Encode(Done(id, ok, hash)).value) == Ok(Done(id, ok, hash))
  {
    hide PutBE, GetBE, Header;
    var flag: byte := if ok then 1 else 0;
    var b := Encode(Done(id, ok, hash)).value;
    HeaderBack(6, id, [flag] + hash);
    assert b == Header(6, id) + ([flag] + hash);
    assert b[21] == b[21..][0] && b[22..54] == b[21..][1..];
  }

  /** Decoding inverts encoding for all seven frame types. */
  lemma DecodeEncode(f: Frame)
    requires Encode(f).Ok? && InRange(f)
    ensures Decode(Encode(f).value) == Ok(Canonical(f))
  {
    hide PutBE, GetBE, Header, EncodeOffer;
    var b := Encode(f).value;
    match f
    case Offer(m) => OfferBack(m);
    case Accept(id, off) =>
      NumberBack(2, id, off, []);
      assert b == Header(2, id) + PutBE(8, ToU64(off)) + [];
    case Reject(id, reason) => TextBack(3, id, reason);
    case Chunk(id, off, data) => NumberBack(4, id, off, data);
    case Ack(id, off) =>
      NumberBack(5, id, off, []);
      assert b == Header(5, id) + PutBE(8, ToU64(off)) + [];
    case Done(id, ok, hash) => DoneBack(id, ok, hash);
    case Abort(id, reason) => TextBack(7, id, reason);
  }

  lemma RejoinHeader(b: bytes)
    requires |b| >= 21 && b[..4] == MAGIC
    ensures b == Header(b[4], b[5..21]) + b[21..]
  {
    assert b == b[..4] + [b[4]] + b[5..21] + b[21..];
  }

  lemma RejoinNumber(b: bytes)
    requires |b| >= 29 && b[..4] == MAGIC
    ensures IsI64(FromU64(GetBE(b[21..29])))
    ensures b == Header(b[4], b[5..21]) + PutBE(8, ToU64(FromU64(GetBE(b[21..29])))) + b[29..]
  {
    RejoinHeader(b);
    FieldI64(b[21..29]);
    assert b[21..] == b[21..29] + b[29..];
  }

  lemma RejoinText(b: bytes)
    requires |b| >= 23 && b[..4] == MAGIC && |b| == 23 + GetBE(b[21..23])
    ensures |b| - 23 <= 0xffff
    ensures b == EncodeText(b[4], b[5..21], b[23..])
  {
    RejoinHeader(b);
    PutGet(b[21..23]);
    assert Pow256(2) == 0x10000;
    assert b[21..] == b[21..23] + b[23..];
  }

  lemma RejoinOffer(b: bytes)
    requires |b| >= 63 && b[..4] == MAGIC && b[4] == 1 && |b| == 63 + GetBE(b[61..63])
    requires FromU64(GetBE(b[21..29])) >= 0
    ensures EncodeOffer(Meta(b[5..21], b[63..], FromU64(GetBE(b[21..29])), b[29..61])) == Ok(b)
  {
    RejoinNumber(b);
    PutGet(b[61..63]);
    assert Pow256(2) == 0x10000;
    var num := PutBE(8, ToU64(FromU64(GetBE(b[21..29]))));
    assert b[29..] == b[29..61] + b[61..63] + b[63..];
    assert b == Header(1, b[5..21]) + num + (b[29..61] + b[61..63] + b[63..]);
    assert b == Header(1, b[5..21]) + num + b[29..61] + b[61..63] + b[63..];
  }

  /** The two accepted payloads that do not re-encode to themselves. */
  predicate Irregular(b: bytes) {
    |b| >= 29 && ((b[4] == 1 && FromU64(GetBE(b[21..29])) < 0) || (b[4] == 6 && b[21] > 1))
  }

  /** Every accepted payload re-encodes to itself exactly when it is regular; an offer with the
      sign bit set is refused by the encoder, and a done flag above one is rewritten to one. */
  lemma EncodeDecode(b: bytes)
    requires Decode(b).Ok?
    ensures InRange(Decode(b).value)
    ensures Encode(Decode(b).value) == Ok(b) <==> !Irregular(b)
    ensures Irregular(b) && b[4] == 1 ==> Encode(Decode(b).value) == Err(SizeMismatch)
    ensures Irregular(b) && b[4] == 6 ==> Encode(Decode(b).value) == Ok(b[21 := 1])
  {
    if b[4] == 1 {
      RejoinNumber(b);
      if !Irregular(b) { RejoinOffer(b); }
    } else if b[4] == 2 || b[4] == 5 {
      RejoinNumber(b);
      assert b == Header(b[4], b[5..21]) + PutBE(8, ToU64(FromU64(GetBE(b[21..29]))));
    } else if b[4] == 3 || b[4] == 7 {
      RejoinText(b);
    } else if b[4] == 4 {
      RejoinNumber(b);
    } else {
      RejoinHeader(b);
      assert b[21..] == [b[21]] + b[22..54];
      assert b[21 := 1] == Header(6, b[5..21]) + [1] + b[22..54];
      assert b == Header(6, b[5..21]) + [b[21]] + b[22..54];
    }
  }

  // ---------- the layout, byte for byte ----------

  function IdOf(f: Frame): ID { if f.Offer? then f.meta.id else f.id }

  function CodeOf(f: Frame): byte {
    match f
    case Offer(_) => 1 case Accept(_, _) => 2 case Reject(_, _) => 3 case Chunk(_, _, _) => 4
    case Ack(_, _) => 5 case Done(_, _, _) => 6 case Abort(_, _) => 7
  }

  /** What follows the header of 21 bytes, field by field. */
  predicate Body(f: Frame, b: bytes)
    requires |b| >= 21
  {
    match f
    case Offer(m) =>
      && |b| == 63 + |m.name| && b[21..29] == PutBE(8, ToU64(m.size)) && b[29..61] == m.hash
      && b[61..63] == PutBE(2, |m.name|) && b[63..] == m.name
    case Accept(_, off) => |b| == 29 && b[21..29] == PutBE(8, ToU64(off))
    case Ack(_, off) => |b| == 29 && b[21..29] == PutBE(8, ToU64(off))
    case Chunk(_, off, data) => |b| == 29 + |data| && b[21..29] == PutBE(8, ToU64(off)) && b[29..] == data
    case Done(_, ok, hash) => |b| == 54 && b[21] == (if ok then 1 else 0) && b[22..] == hash
    case Reject(_, reason) => TextBody(b, reason)
    case Abort(_, reason) => TextBody(b, reason)
  }

  predicate TextBody(b: bytes, reason: bytes)
    requires |b| >= 21
  {
    var n := if |reason| > 0xffff then 0xffff else |reason|;
    |b| == 23 + n && b[21..23] == PutBE(2, n) && b[23..] == reason[..n]
  }

  /** Every frame is "TFX1", the type code, the id, and its fields at fixed places. */
  lemma Layout(f: Frame)
    requires Encode(f).Ok?
    ensures var b := Encode(f).value;
            && |b| >= 21 && b[..4] == [0x54, 0x46, 0x58, 0x31] && b[4] == CodeOf(f) && b[5..21] == IdOf(f)
            && Body(f, b)
  {
    var b := Encode(f).value;
    HeaderBack(CodeOf(f), IdOf(f), b[21..]);
    match f
    case Offer(m) =>
      assert b == Header(1, m.id) + (PutBE(8, ToU64(m.size)) + m.hash + PutBE(2, |m.name|) + m.name);
    case Chunk(id, off, data) => assert b == Header(4, id) + (PutBE(8, ToU64(off)) + data);
    case Done(id, ok, hash) => assert b == Header(6, id) + ([if ok then 1 else 0] + hash);
    case Reject(id, reason) => TextLayout(3, id, reason);
    case Abort(id, reason) => TextLayout(7, id, reason);
    case _ =>
  }

  lemma TextLayout(typ: byte, id: ID, reason: bytes)
    ensures var b := EncodeText(typ, id, reason);
            |b| >= 21 && b[..4] == MAGIC && b[4] == typ && b[5..21] == id && TextBody(b, reason)
  {
    var r := Cut16(reason);
    HeaderBack(typ, id, PutBE(2, |r|) + r);
    assert EncodeText(typ, id, reason) == Header(typ, id) + (PutBE(2, |r|) + r);
    assert reason[..|r|] == r;
  }
}
