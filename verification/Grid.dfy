/** The arithmetic of one attempt: which byte offset the k-th chunk starts at, which chunk each
    acknowledgement names, and how many acknowledgements are due after k chunks. */
module Grid {
  type pos = x: int | x > 0 witness 1

  function CeilDiv(a: nat, b: pos): nat { (a + b - 1) / b }

  function Min(a: int, b: int): int { if a < b then a else b }

  lemma CeilDivBounds(a: nat, b: pos)
    ensures a <= CeilDiv(a, b) * b < a + b
  {
    var q := (a + b - 1) / b;
    assert a + b - 1 == b * q + (a + b - 1) % b;
    assert q * b == b * q;
  }

  lemma CeilDivUnique(a: nat, b: pos, n: nat)
    requires a <= n * b < a + b
    ensures CeilDiv(a, b) == n
  {
    CeilDivBounds(a, b);
    var m := CeilDiv(a, b);
    if m < n { MulMono(m + 1, n, b); } else if n < m { MulMono(n + 1, m, b); }
  }

  lemma MulMono(x: nat, y: nat, b: pos)
    requires x <= y
    ensures x * b <= y * b
  {
    assert y * b == x * b + (y - x) * b;
    assert (y - x) * b >= 0;
  }

  /** Offset of chunk `k` when `from`..`size` is cut in pieces of `chunk` bytes. */
  function Off(from: nat, size: nat, chunk: pos, k: nat): nat
    requires from <= size
  {
    Min(from + k * chunk, size)
  }

  function Pieces(from: nat, size: nat, chunk: pos): nat
    requires from <= size
  {
    CeilDiv(size - from, chunk)
  }

  lemma OffBelow(from: nat, size: nat, chunk: pos, k: nat)
    requires from <= size
    ensures k < Pieces(from, size, chunk) ==> Off(from, size, chunk, k) == from + k * chunk < size
    ensures k >= Pieces(from, size, chunk) ==> Off(from, size, chunk, k) == size
  {
    var n := Pieces(from, size, chunk);
    CeilDivBounds(size - from, chunk);
    if k < n { MulMono(k + 1, n, chunk); } else { MulMono(n, k, chunk); }
  }

  lemma OffStep(from: nat, size: nat, chunk: pos, k: nat)
    requires from <= size && k < Pieces(from, size, chunk)
    ensures var o := Off(from, size, chunk, k);
            o < size && Off(from, size, chunk, k + 1) == Min(o + chunk, size)
  {
    OffBelow(from, size, chunk, k);
  }

  lemma OffMono(from: nat, size: nat, chunk: pos, a: nat, b: nat)
    requires from <= size && a <= b
    ensures from <= Off(from, size, chunk, a) <= Off(from, size, chunk, b) <= size
    ensures a < b <= Pieces(from, size, chunk) ==> Off(from, size, chunk, a) < Off(from, size, chunk, b)
  {
    MulMono(a, b, chunk);
    MulMono(0, a, chunk);
    if a < b <= Pieces(from, size, chunk) {
      OffBelow(from, size, chunk, a);
      MulMono(a + 1, b, chunk);
    }
  }

  /** The ceiling division counts whole frames: between two chunk boundaries it is the number of
      chunks, the short last one included. */
  lemma FramesBetween(from: nat, size: nat, chunk: pos, a: nat, b: nat)
    requires from <= size && a <= b <= Pieces(from, size, chunk)
    ensures CeilDiv(Off(from, size, chunk, b) - Off(from, size, chunk, a), chunk) == b - a
  {
    var n := Pieces(from, size, chunk);
    OffMono(from, size, chunk, a, b);
    OffBelow(from, size, chunk, a);
    OffBelow(from, size, chunk, b);
    assert (b - a) * chunk == b * chunk - a * chunk;
    if a < b {
      CeilDivBounds(size - from, chunk);
      CeilDivUnique(Off(from, size, chunk, b) - Off(from, size, chunk, a), chunk, b - a);
    } else {
      CeilDivUnique(0, chunk, 0);
    }
  }

  // ---------- acknowledgements: one every `every` chunks, and one after the last ----------

  function AckIdx(n: nat, every: pos, j: nat): nat { Min(j * every, n) }

  function Due(n: nat, every: pos, k: nat): nat {
    if k >= n then CeilDiv(n, every) else k / every
  }

  lemma DueBelow(n: nat, every: pos, k: nat)
    requires k < n
    ensures var d := Due(n, every, k);
            d < CeilDiv(n, every) && AckIdx(n, every, d) == d * every <= k < d * every + every
  {
    var d := k / every;
    assert k == every * d + k % every;
    assert d * every == every * d;
    CeilDivBounds(n, every);
    if CeilDiv(n, every) <= d { MulMono(CeilDiv(n, every), d, every); }
  }

  lemma AckIdxEnd(n: nat, every: pos, j: nat)
    ensures j >= CeilDiv(n, every) ==> AckIdx(n, every, j) == n
    ensures j < CeilDiv(n, every) ==> AckIdx(n, every, j) == j * every < n
  {
    CeilDivBounds(n, every);
    if j >= CeilDiv(n, every) { MulMono(CeilDiv(n, every), j, every); }
    else { MulMono(j + 1, CeilDiv(n, every), every); }
  }

  lemma AckIdxMono(n: nat, every: pos, i: nat, j: nat)
    requires i <= j
    ensures AckIdx(n, every, i) <= AckIdx(n, every, j) <= n
    ensures i < j <= CeilDiv(n, every) ==> AckIdx(n, every, i) < AckIdx(n, every, j)
  {
    MulMono(i, j, every);
    if i < j <= CeilDiv(n, every) {
      AckIdxEnd(n, every, i);
      MulMono(i + 1, j, every);
    }
  }

  /** The receiver's test, "enough chunks since the last ack, or this was the last chunk",
      fires exactly when one more acknowledgement falls due. */
  lemma DueStep(n: nat, every: pos, k: nat)
    requires k < n
    ensures var d := Due(n, every, k);
            && AckIdx(n, every, d) <= k
            && Due(n, every, k + 1) == (if k - AckIdx(n, every, d) + 1 >= every || k + 1 == n then d + 1 else d)
            && (Due(n, every, k + 1) == d + 1 ==> AckIdx(n, every, d + 1) == k + 1)
  {
    var d := Due(n, every, k);
    DueBelow(n, every, k);
    assert (d + 1) * every == d * every + every && (d + 2) * every == (d + 1) * every + every;
    if k + 1 == n {
      CeilDivUnique(n, every, d + 1);
    } else {
      DueBelow(n, every, k + 1);
      var e := Due(n, every, k + 1);
      if e < d { MulMono(e + 1, d, every); }
      if e > d { MulMono(d + 1, e, every); }
      if e > d + 1 { MulMono(d + 2, e, every); }
    }
  }

  lemma DueZero(n: nat, every: pos)
    ensures Due(n, every, 0) == 0
    ensures AckIdx(n, every, 0) == 0
  {
    if n == 0 { CeilDivUnique(0, every, 0); }
  }

  lemma DueEnd(n: nat, every: pos, k: nat)
    requires k <= n
    ensures Due(n, every, k) <= CeilDiv(n, every)
    ensures Due(n, every, k) == CeilDiv(n, every) <==> k == n
    ensures AckIdx(n, every, Due(n, every, k)) <= k
    ensures k - AckIdx(n, every, Due(n, every, k)) < every
  {
    if k < n { DueBelow(n, every, k); } else { AckIdxEnd(n, every, CeilDiv(n, every)); }
  }
}
