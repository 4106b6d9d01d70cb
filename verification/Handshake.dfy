/** The two-party key exchange (src/crypto/handshake.cpp:49-134). */
module Handshake {
  import opened Bytes
  import opened Errors
  import opened Protocol
  import opened Session

  /** Pre-shared key and pinned fingerprint; absent options are an empty key and no pin. */
  datatype Opts = Opts(psk: bytes, pin: Option<Key32>)

  /** What one side wrote and what it returned. */
  datatype Half = Half(out: bytes, key: Result<Key32, ConnErr>)

  predicate PinOk(s: Suite, o: Opts, peer: bytes) { o.pin.Some? ==> s.sha(peer) == o.pin.value }

  /** `room` is how many bytes the stream takes before writing fails. */
  function Client(s: Suite, priv: Key32, version: nat, o: Opts, input: bytes, room: nat): Half {
    if !SupportsVersion(version) then Half([], Err(UnsupportedProtocol))
    else
      var out := Upto(HelloBytes(version, s.pub(priv)), room);
      if room < 38 then Half(out, Err(IoError))
      else match ParseHello(input)
      case Err(e) => Half(out, Err(e))
      case Ok(h) =>
        if h.version != version || |h.pub| != 32 then Half(out, Err(HandshakeAuthentication))
        else if !PinOk(s, o, h.pub) then Half(out, Err(PeerFingerprintMismatch))
        else Half(out, Ok(DeriveKey(s, s.dh(priv, h.pub), o.psk)))
  }

  function Server(s: Suite, priv: Key32, o: Opts, input: bytes, room: nat): Half {
    match ParseHello(input)
    case Err(e) => Half([], Err(e))
    case Ok(h) =>
      if |h.pub| != 32 then Half([], Err(BadHandshake))
      else if !PinOk(s, o, h.pub) then Half([], Err(PeerFingerprintMismatch))
      else
        var out := Upto(HelloBytes(h.version, s.pub(priv)), room);
        if room < 38 then Half(out, Err(IoError)) else Half(out, Ok(DeriveKey(s, s.dh(priv, h.pub), o.psk)))
  }

  method ClientHandshake(rw: ByteStream, s: Suite, priv: Key32, version: nat, o: Opts)
      returns (r: Result<Key32, ConnErr>)
    modifies rw
    ensures var half := Client(s, priv, version, o, old(rw.input), old(rw.room));
            r == half.key && rw.output == old(rw.output) + half.out
  {
    var ec := WriteHandshake(rw, version, s.pub(priv));
    if ec.Some? {
      return Err(ec.value);
    }
    var hello := ReadHandshake(rw);
    if hello.Err? {
      return Err(hello.error);
    }
    var peer := hello.value.pub;
    if hello.value.version != version || |peer| != 32 {
      return Err(HandshakeAuthentication);
    }
    if o.pin.Some? && s.sha(peer) != o.pin.value {
      return Err(PeerFingerprintMismatch);
    }
    var key := DeriveSessionKey(s, s.dh(priv, peer), o.psk);
    r := Ok(key);
  }

  method ServerHandshake(rw: ByteStream, s: Suite, priv: Key32, o: Opts) returns (r: Result<Key32, ConnErr>)
    modifies rw
    ensures var half := Server(s, priv, o, old(rw.input), old(rw.room));
            r == half.key && rw.output == old(rw.output) + half.out
  {
    var hello := ReadHandshake(rw);
    if hello.Err? {
      return Err(hello.error);
    }
    var peer := hello.value.pub;
    if |peer| != 32 {
      return Err(BadHandshake);
    }
    if o.pin.Some? && s.sha(peer) != o.pin.value {
      return Err(PeerFingerprintMismatch);
    }
    var shared := s.dh(priv, peer);
    var ec := WriteHandshake(rw, hello.value.version, s.pub(priv));
    if ec.Some? {
      return Err(ec.value);
    }
    var key := DeriveSessionKey(s, shared, o.psk);
    r := Ok(key);
  }

  /** Over an unaltered stream that may refuse or lose any tail of either message: the exchange
      succeeds exactly where the version is supported, the pin holds, the peer's message arrives in
      full and one's own message goes out in full; and then the keys are hashes of the same secret
      mixed with each side's own pre-shared key. */
  lemma Exchange(s: Suite, a: Key32, b: Key32, version: nat, ca: Opts, sb: Opts, ra: nat, rb: nat, i: nat, j: nat)
    requires Commutes(s)
    requires i <= |Client(s, a, version, ca, [], ra).out|
    requires j <= |Server(s, b, sb, Client(s, a, version, ca, [], ra).out[..i], rb).out|
    ensures var up := Client(s, a, version, ca, [], ra).out[..i];
            var server := Server(s, b, sb, up, rb);
            var client := Client(s, a, version, ca, server.out[..j], ra);
            && client.out == Client(s, a, version, ca, [], ra).out
            && (server.key.Ok? <==>
                  version == 1 && i == 38 && rb >= 38 && (sb.pin.Some? ==> s.sha(s.pub(a)) == sb.pin.value))
            && (client.key.Ok? <==> server.key.Ok? && j == 38 && (ca.pin.Some? ==> s.sha(s.pub(b)) == ca.pin.value))
            && (version != 1 ==> client == Half([], Err(UnsupportedProtocol)) && server.out == [])
            && (version == 1 && i == 38 && sb.pin.Some? && s.sha(s.pub(a)) != sb.pin.value ==>
                  server == Half([], Err(PeerFingerprintMismatch)))
            && (server.key.Ok? && j == 38 && ca.pin.Some? && s.sha(s.pub(b)) != ca.pin.value ==>
                  client.key == Err(PeerFingerprintMismatch))
            && (client.key.Ok? ==>
                  && server.key == Ok(DeriveKey(s, s.dh(a, s.pub(b)), sb.psk))
                  && client.key == Ok(DeriveKey(s, s.dh(a, s.pub(b)), ca.psk)))
  {
    if SupportsVersion(version) {
      var hello := HelloBytes(version, s.pub(a));
      HelloBack(version, s.pub(a), i);
      assert Upto(hello, ra)[..i] == hello[..i];
      if i == 38 {
        var reply := HelloBytes(version, s.pub(b));
        if PinOk(s, sb, s.pub(a)) {
          HelloBack(version, s.pub(b), j);
          assert Upto(reply, rb)[..j] == reply[..j];
        }
        assert s.dh(a, s.pub(b)) == s.dh(b, s.pub(a));
      }
    }
  }

  /** Equal pre-shared keys give equal session keys, and each side opens what the other seals. */
  lemma Agreement(s: Suite, a: Key32, b: Key32, version: nat, ca: Opts, sb: Opts, ra: nat, rb: nat, nonce: bytes,
      pt: bytes)
    requires Commutes(s) && SealsRight(s) && ca.psk == sb.psk && |nonce| == NONCE && |pt| <= MAX_PLAIN
    requires var server := Server(s, b, sb, Client(s, a, version, ca, [], ra).out, rb);
             server.key.Ok? && Client(s, a, version, ca, server.out, ra).key.Ok?
    ensures var server := Server(s, b, sb, Client(s, a, version, ca, [], ra).out, rb);
            var k1, k2 := Client(s, a, version, ca, server.out, ra).key.value, server.key.value;
            && k1 == k2
            && Seal(s, k1, nonce, pt).Ok? && Open(s, k2, Seal(s, k1, nonce, pt).value) == Ok(pt)
            && Seal(s, k2, nonce, pt).Ok? && Open(s, k1, Seal(s, k2, nonce, pt).value) == Ok(pt)
  {
    var up := Client(s, a, version, ca, [], ra).out;
    var down := Server(s, b, sb, up, rb).out;
    assert up[..|up|] == up && down[..|down|] == down;
    Exchange(s, a, b, version, ca, sb, ra, rb, |up|, |down|);
    OpenSeal(s, Server(s, b, sb, up, rb).key.value, nonce, pt);
  }

  /** Different pre-shared keys: some lawful suite lets both sides finish with different session keys. */
  lemma DifferentPskDifferentKeys(a: Key32, b: Key32, p: bytes, q: bytes) returns (s: Suite)
    requires |p| < 0x1_0000_0000 && |q| < 0x1_0000_0000 && p != q
    ensures SealsRight(s) && Commutes(s)
    ensures var up := Client(s, a, 1, Opts(p, None), [], 38).out;
            var server := Server(s, b, Opts(q, None), up, 38);
            var client := Client(s, a, 1, Opts(p, None), server.out, 38);
            server.key.Ok? && client.key.Ok? && server.key != client.key
  {
    s := Telling(Preimage(Zeros(32), p));
    TellingIsLawful(Preimage(Zeros(32), p));
    var up := Client(s, a, 1, Opts(p, None), [], 38).out;
    HelloLayout(1, s.pub(a));
    HelloLayout(1, s.pub(b));
    var down := Server(s, b, Opts(q, None), up, 38).out;
    assert up[..38] == up && down[..38] == down;
    Exchange(s, a, b, 1, Opts(p, None), Opts(q, None), 38, 38, 38, 38);
    PreimageInjective(Zeros(32), p, Zeros(32), q);
    assert DeriveKey(s, Zeros(32), p)[31] == 1 && DeriveKey(s, Zeros(32), q)[31] == 0;
  }
}
