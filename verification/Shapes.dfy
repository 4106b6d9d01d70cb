/** Shapes of frame sequences and of progress reports. */
module Shapes {
  import opened Bytes
  import opened Frames

  /** `fs` are chunks that cover [from, to) in order, without gap or overlap, with the bytes of `src`. */
  predicate Tiles(fs: seq<Frame>, id: ID, src: bytes, from: nat, to: int) {
    if fs == [] then from == to
    else && from < to <= |src|
         && fs[0].Chunk?
         && 0 < |fs[0].data| <= to - from
         && fs[0] == Chunk(id, from, src[from..from + |fs[0].data|])
         && Tiles(fs[1..], id, src, from + |fs[0].data|, to)
  }

  /** `fs` are acknowledgements with strictly increasing offsets in (lo, hi]. */
  predicate Climbs(fs: seq<Frame>, id: ID, lo: int, hi: int) {
    fs == [] || (fs[0].Ack? && fs[0].id == id && lo < fs[0].offset <= hi && Climbs(fs[1..], id, fs[0].offset, hi))
  }

  /** One more chunk at the end of a tiling extends it. */
  lemma {:induction false} TilesMore(fs: seq<Frame>, id: ID, src: bytes, from: nat, to: int, n: nat)
    requires Tiles(fs, id, src, from, to) && 0 <= to && 0 < n && to + n <= |src|
    ensures Tiles(fs + [Chunk(id, to, src[to..to + n])], id, src, from, to + n)
  {
    var f := Chunk(id, to, src[to..to + n]);
    var gs := fs + [f];
    if fs == [] {
      assert gs == [f] && gs[1..] == [];
    } else {
      TilesMore(fs[1..], id, src, from + |fs[0].data|, to, n);
      assert gs[1..] == fs[1..] + [f];
    }
  }

  /** Progress reports never go backwards. */
  predicate Ascends(s: seq<int>) {
    forall i :: 0 < i < |s| ==> s[i - 1] <= s[i]
  }

  predicate EndsBy(s: seq<int>, hi: int) { s == [] || s[|s| - 1] <= hi }

  predicate StartsFrom(s: seq<int>, lo: int) { s == [] || lo <= s[0] }

  lemma JoinAscends(a: seq<int>, b: seq<int>, mid: int)
    requires Ascends(a) && EndsBy(a, mid) && Ascends(b) && StartsFrom(b, mid)
    ensures Ascends(a + b)
  {
    forall i | 0 < i < |a + b|
      ensures (a + b)[i - 1] <= (a + b)[i]
    {
    }
  }

  lemma JoinEnds(a: seq<int>, b: seq<int>, mid: int, hi: int)
    requires EndsBy(a, mid) && EndsBy(b, hi) && mid <= hi
    ensures EndsBy(a + b, hi)
  {
  }
}
