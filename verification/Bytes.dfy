/** Bytes and the big-endian integers of both wire formats
    (src/transfer/transfer.cpp:43-62, src/protocol/protocol.cpp:12-31). */
module Bytes {
  type byte = b: int | 0 <= b < 256
  type bytes = seq<byte>

  function Zeros(n: nat): (s: bytes)
    ensures |s| == n && forall i :: 0 <= i < n ==> s[i] == 0
  {
    if n == 0 then [] else [0] + Zeros(n - 1)
  }

  function Pow256(k: nat): (r: nat)
    ensures r > 0
  {
    if k == 0 then 1 else 256 * Pow256(k - 1)
  }

  /** The low `k` bytes of `v`, most significant first. */
  function PutBE(k: nat, v: nat): (s: bytes)
    ensures |s| == k
  {
    if k == 0 then [] else PutBE(k - 1, v / 256) + [v % 256]
  }

  function GetBE(s: bytes): nat {
    if s == [] then 0 else GetBE(s[..|s| - 1]) * 256 + s[|s| - 1]
  }

  lemma {:induction false} GetPut(k: nat, v: nat)
    requires v < Pow256(k)
    ensures GetBE(PutBE(k, v)) == v
  {
    if k > 0 {
      GetPut(k - 1, v / 256);
      assert PutBE(k, v)[..k - 1] == PutBE(k - 1, v / 256);
    }
  }

  lemma {:induction false} PutGet(s: bytes)
    ensures GetBE(s) < Pow256(|s|)
    ensures PutBE(|s|, GetBE(s)) == s
  {
    if s != [] {
      var t := s[..|s| - 1];
      PutGet(t);
      assert GetBE(s) / 256 == GetBE(t) && GetBE(s) % 256 == s[|s| - 1];
      assert s == t + [s[|s| - 1]];
    }
  }

  /** Most significant byte first. */
  lemma BigEndian(v: nat)
    ensures PutBE(2, v) == [v / 0x100 % 0x100, v % 0x100]
    ensures PutBE(4, v) == [v / 0x100_0000 % 0x100, v / 0x1_0000 % 0x100, v / 0x100 % 0x100, v % 0x100]
  {
    assert v / 0x100 / 0x100 == v / 0x1_0000 && v / 0x1_0000 / 0x100 == v / 0x100_0000;
    assert PutBE(0, v / 0x1_0000) == [] && PutBE(0, v / 0x1_0000 / 0x1_0000) == [];
    assert PutBE(1, v / 0x100) == [v / 0x100 % 0x100];
    assert PutBE(1, v / 0x100_0000) == [v / 0x100_0000 % 0x100];
    assert PutBE(2, v / 0x1_0000) == PutBE(1, v / 0x100_0000) + [v / 0x1_0000 % 0x100];
    assert PutBE(3, v / 0x100) == PutBE(2, v / 0x1_0000) + [v / 0x100 % 0x100];
  }

  /** put_be64: the loop fills eight bytes from the last one down. */
  method PutBe64(p: array<byte>, at: nat, v: nat)
    requires at + 8 <= p.Length
    modifies p
    ensures p[..] == old(p[..at]) + PutBE(8, v) + old(p[at + 8..])
  {
    var i, rest := 8, v;
    while i > 0
      invariant 0 <= i <= 8
      invariant p[..at + i] == old(p[..at + i])
      invariant p[at + 8..] == old(p[at + 8..])
      invariant PutBE(8, v) == PutBE(i, rest) + p[at + i..at + 8]
    {
      i := i - 1;
      ghost var tail := p[at + i + 1..at + 8];
      p[at + i] := rest % 256;
      assert p[at + i..at + 8] == [rest % 256] + tail;
      assert PutBE(i + 1, rest) == PutBE(i, rest / 256) + [rest % 256];
      rest := rest / 256;
    }
    assert p[..] == p[..at] + p[at..at + 8] + p[at + 8..];
  }

  /** get_be64: the loop shifts in eight bytes from the first one up. */
  method GetBe64(p: array<byte>, at: nat) returns (v: nat)
    requires at + 8 <= p.Length
    ensures v == GetBE(p[at..at + 8])
  {
    v := 0;
    for i := 0 to 8
      invariant v == GetBE(p[at..at + i])
    {
      assert p[at..at + i + 1][..i] == p[at..at + i];
      v := v * 256 + p[at + i];
    }
  }

  /** Two's-complement view of a 64-bit field. */
  const TWO63: int := 0x8000_0000_0000_0000
  const TWO64: int := 0x1_0000_0000_0000_0000

  predicate IsI64(v: int) { -TWO63 <= v < TWO63 }

  function ToU64(v: int): (r: nat)
  {
    v % TWO64
  }

  function FromU64(u: nat): int
  {
    if u < TWO63 then u else u - TWO64
  }

  lemma I64Field(v: int)
    requires IsI64(v)
    ensures FromU64(GetBE(PutBE(8, ToU64(v)))) == v
  {
    assert Pow256(8) == TWO64;
    GetPut(8, ToU64(v));
  }

  lemma WrapBack(u: nat)
    requires u < TWO64
    ensures ToU64(FromU64(u)) == u
  {
  }

  lemma FieldI64(s: bytes)
    requires |s| == 8
    ensures IsI64(FromU64(GetBE(s)))
    ensures PutBE(8, ToU64(FromU64(GetBE(s)))) == s
  {
    assert Pow256(8) == TWO64;
    PutGet(s);
    WrapBack(GetBE(s));
  }
}
