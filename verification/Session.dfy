/** Session keys and sealed blobs (src/crypto/session.cpp:51-139) and the chain of size limits they
    share with records, connections and transfer frames. The primitives are parameters. */
module Session {
  import opened Bytes
  import opened Errors
  import opened Frames
  import opened Endpoints
  import opened Transfer
  import Protocol

  type Key32 = s: bytes | |s| == 32 witness Zeros(32)

  /** SHA-256, X25519 and AES-256-GCM (ciphertext and tag separately) as functions. */
  datatype Suite = Suite(sha: bytes -> Key32,
                         pub: Key32 -> Key32,
                         dh: (Key32, Key32) -> Key32,
                         encrypt: (bytes, bytes, bytes) -> bytes,
                         tag: (bytes, bytes, bytes) -> bytes,
                         decrypt: (bytes, bytes, bytes, bytes) -> Option<bytes>)

  const NONCE: nat := 12
  const TAG: nat := 16

  /** Authenticated encryption undoes itself and keeps lengths. */
  ghost predicate SealsRight(s: Suite) {
    && (forall k, n, p :: |s.encrypt(k, n, p)| == |p| && |s.tag(k, n, p)| == TAG
                          && s.decrypt(k, n, s.encrypt(k, n, p), s.tag(k, n, p)) == Some(p))
    && (forall k, n, ct, t :: s.decrypt(k, n, ct, t).Some? ==> |s.decrypt(k, n, ct, t).value| == |ct|)
  }

  /** Both sides of a Diffie-Hellman exchange compute the same secret. */
  ghost predicate Commutes(s: Suite) {
    forall a: Key32, b: Key32 :: s.dh(a, s.pub(b)) == s.dh(b, s.pub(a))
  }

  // ---------- key derivation ----------

  function Preimage(shared: bytes, psk: bytes): bytes {
    if psk == [] then shared else shared + [0] + PutBE(4, |psk|) + psk
  }

  function DeriveKey(s: Suite, shared: bytes, psk: bytes): Key32 { s.sha(Preimage(shared, psk)) }

  /** derive_session_key feeds the hash context piece by piece. */
  method DeriveSessionKey(s: Suite, shared: bytes, psk: bytes) returns (key: Key32)
    ensures key == DeriveKey(s, shared, psk)
  {
    if psk == [] {
      return s.sha(shared);
    }
    var fed := shared;
    fed := fed + [0];
    fed := fed + PutBE(4, |psk|);
    fed := fed + psk;
    key := s.sha(fed);
  }

  /** The hashed bytes determine the secret and the pre-shared key; an empty key is like no other. */
  lemma PreimageInjective(a: Key32, p: bytes, b: Key32, q: bytes)
    requires |p| < 0x1_0000_0000 && |q| < 0x1_0000_0000
    ensures Preimage(a, p) == Preimage(b, q) <==> a == b && p == q
  {
    var x, y := Preimage(a, p), Preimage(b, q);
    assert |x| == 32 <==> p == [];
    assert |y| == 32 <==> q == [];
    assert x[..32] == a && y[..32] == b;
    if x == y && p != [] {
      assert x[37..] == p && y[37..] == q;
    }
  }

  /** The hashed bytes: the secret alone, or the secret, a zero byte, the length of the pre-shared key as four
      big-endian bytes, and the key. */
  lemma PreimageLayout(shared: Key32, psk: bytes)
    ensures psk == [] ==> Preimage(shared, psk) == shared
    ensures psk != [] ==>
              var x := Preimage(shared, psk);
              |x| == 37 + |psk| && x[..32] == shared && x[32] == 0 && x[33..37] == PutBE(4, |psk|) && x[37..] == psk
  {
  }

  /** A suite that obeys both laws and whose hash singles out one byte string. */
  function Telling(x: bytes): Suite {
    Suite(y => if y == x then Zeros(31) + [1] else Zeros(32), k => k, (_, _) => Zeros(32),
          (_, _, p) => p, (_, _, _) => Zeros(TAG), (_, _, ct, _) => Some(ct))
  }

  lemma TellingIsLawful(x: bytes)
    ensures SealsRight(Telling(x)) && Commutes(Telling(x))
  {
  }

  /** Different secrets or different pre-shared keys: some lawful suite gives different session keys. */
  lemma KeysDiffer(a: Key32, p: bytes, b: Key32, q: bytes) returns (s: Suite)
    requires |p| < 0x1_0000_0000 && |q| < 0x1_0000_0000 && (a != b || p != q)
    ensures SealsRight(s) && Commutes(s) && DeriveKey(s, a, p) != DeriveKey(s, b, q)
  {
    s := Telling(Preimage(a, p));
    TellingIsLawful(Preimage(a, p));
    PreimageInjective(a, p, b, q);
    assert DeriveKey(s, a, p)[31] == 1 && DeriveKey(s, b, q)[31] == 0;
  }

  /** The secret and the pre-shared key both enter the session key: it is the same for every choice of the
      primitives if and only if both are the same. */
  lemma KeyNeedsBoth(a: Key32, p: bytes, b: Key32, q: bytes)
    requires |p| < 0x1_0000_0000 && |q| < 0x1_0000_0000
    ensures (forall s: Suite :: DeriveKey(s, a, p) == DeriveKey(s, b, q)) <==> a == b && p == q
  {
    if a != b || p != q {
      var s := KeysDiffer(a, p, b, q);
    }
  }

  // ---------- sealed blobs ----------

  function Seal(s: Suite, key: bytes, nonce: bytes, pt: bytes): Result<bytes, ConnErr> {
    if NONCE + TAG + |pt| > Protocol.MAX_RECORD - 1 then Err(BadRecord)
    else Ok(nonce + s.encrypt(key, nonce, pt) + s.tag(key, nonce, pt))
  }

  function Open(s: Suite, key: bytes, sealed: bytes): Result<bytes, ConnErr> {
    if |sealed| < NONCE + TAG then Err(BadRecord)
    else
      var n := |sealed| - NONCE - TAG;
      var got := s.decrypt(key, sealed[..NONCE], sealed[NONCE..NONCE + n], sealed[NONCE + n..]);
      if got.None? then Err(BadRecord) else Ok(got.value)
  }

  /** The slices line up: what is sealed opens to itself, 28 bytes longer on the wire. */
  lemma OpenSeal(s: Suite, key: bytes, nonce: bytes, pt: bytes)
    requires SealsRight(s) && |nonce| == NONCE && Seal(s, key, nonce, pt).Ok?
    ensures |Seal(s, key, nonce, pt).value| == |pt| + 28
    ensures Open(s, key, Seal(s, key, nonce, pt).value) == Ok(pt)
  {
    var ct, t := s.encrypt(key, nonce, pt), s.tag(key, nonce, pt);
    var b := nonce + ct + t;
    assert b[..NONCE] == nonce && b[NONCE..NONCE + |pt|] == ct && b[NONCE + |pt|..] == t;
  }

  /** A blob opens to a plaintext if and only if it is long enough and its tag, the last 16 bytes, is good for
      its nonce, the first 12, and what lies between; otherwise it is refused. */
  lemma OpenIff(s: Suite, key: bytes, b: bytes, pt: bytes)
    ensures Open(s, key, b) == Ok(pt) <==>
              |b| >= 28 && s.decrypt(key, b[..12], b[12..|b| - 16], b[|b| - 16..]) == Some(pt)
    ensures Open(s, key, b).Err? ==> Open(s, key, b).error == BadRecord
  {
  }

  /** Nonce, ciphertext and tag, in this order. */
  lemma SealLayout(s: Suite, key: bytes, nonce: bytes, pt: bytes)
    requires SealsRight(s) && |nonce| == 12 && Seal(s, key, nonce, pt).Ok?
    ensures var b := Seal(s, key, nonce, pt).value;
            && |b| == 12 + |pt| + 16
            && b[..12] == nonce && b[12..12 + |pt|] == s.encrypt(key, nonce, pt)
                && b[12 + |pt|..] == s.tag(key, nonce, pt)
  {
  }

  // ---------- the size chain ----------

  /** Largest plaintext that can travel. */
  const MAX_PLAIN: nat := 0x100000 - 29

  /** A payload goes through seal, write_record, read_record and open, and comes out unchanged,
      exactly when it is at most 2^20 - 29 bytes long. */
  lemma SizeChain(s: Suite, key: bytes, nonce: bytes, typ: byte, pt: bytes, rest: bytes)
    requires SealsRight(s) && |nonce| == NONCE
    ensures Seal(s, key, nonce, pt).Ok? <==> |pt| <= MAX_PLAIN
    ensures Seal(s, key, nonce, pt).Ok? ==>
              var r := Protocol.Record(typ, Seal(s, key, nonce, pt).value);
              && Protocol.Fits(r)
              && Protocol.Parse(Protocol.RecordBytes(r) + rest) == Protocol.Got(r, rest)
              && Open(s, key, r.sealed) == Ok(pt)
  {
    if |pt| <= MAX_PLAIN {
      OpenSeal(s, key, nonce, pt);
      Protocol.ParseWritten(Protocol.Record(typ, Seal(s, key, nonce, pt).value), rest);
    }
  }

  /** The pong for any ping that could be read can be sealed. */
  lemma PongFits(s: Suite, key: bytes, b: bytes, nonce: bytes)
    requires SealsRight(s)
    requires Protocol.Parse(b).Got? && Open(s, key, Protocol.Parse(b).rec.sealed).Ok?
    ensures Seal(s, key, nonce, Open(s, key, Protocol.Parse(b).rec.sealed).value).Ok?
  {
    Protocol.ParseIsExact(b);
  }

  /** With the chunk size that send_once uses, every chunk frame passes the connection's size check if
      and only if messages of 30 bytes are allowed; below that every non-empty chunk is refused. */
  lemma ChunkFrameFits(maxMessage: int, want: int, id: ID, off: int, data: bytes)
    requires 0 < |data| <= EffectiveChunkSize(maxMessage, want)
    ensures |Payload(Chunk(id, off, data))| == 29 + |data|
    ensures |Payload(Chunk(id, off, data))| <= maxMessage <==> maxMessage >= 30
  {
  }
}
