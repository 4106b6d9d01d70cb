/** Random-access storage behind a transfer, and content hashing over it
    (src/transfer/transfer.cpp:300-321, 380-434; include/cpptcpduplex/transfer/transfer.hpp:67-80).
    SHA-256 is a parameter: a function of the whole byte sequence fed to its context. */
module Storage {
  import opened Bytes
  import opened Errors
  import opened Frames

  /** A destination: its bytes, how far it can grow, and whether it can be read back. */
  datatype Device = Device(data: bytes, capacity: nat, readable: bool)

  const BLOCK: nat := 0x40000  // 256 << 10

  /** The first `n` bytes, or the error of the first block that is not there. */
  function ReadPrefix(data: bytes, n: int): Result<bytes, Err> {
    if n <= 0 then Ok([]) else if n <= |data| then Ok(data[..n]) else Err(Other)
  }

  function ReadAt(data: bytes, off: int, n: nat): Result<bytes, Err> {
    if off < 0 || off + n > |data| then Err(Other) else Ok(data[off..off + n])
  }

  /** `p` laid over `s` at `off`, growing `s` with zeros when it is shorter. */
  function Splice(s: bytes, off: nat, p: bytes): (r: bytes)
    ensures |r| == if off + |p| > |s| then off + |p| else |s|
    ensures r[off..off + |p|] == p
    ensures off <= |s| ==> r[..off] == s[..off]
    ensures off + |p| <= |s| ==> r[off + |p|..] == s[off + |p|..]
  {
    var t := if off + |p| > |s| then s + Zeros(off + |p| - |s|) else s;
    var r := t[..off] + p + t[off + |p|..];
    assert off <= |s| ==> r[..off] == t[..off] == s[..off];
    r
  }

  function WriteAt(d: Device, off: nat, p: bytes): Result<Device, Err> {
    if off + |p| > d.capacity then Err(Other) else Ok(d.(data := Splice(d.data, off, p)))
  }

  /** What a HashingWriter has hashed once it is open at `resume`. */
  function OpenPrefix(d: Device, resume: int): Result<bytes, Err> {
    if resume > 0 && !d.readable then Err(Other) else ReadPrefix(d.data, resume)
  }

  class File {
    var data: bytes
    const capacity: nat
    const readable: bool

    constructor (data: bytes, capacity: nat, readable: bool)
      ensures View() == Device(data, capacity, readable)
    {
      this.data, this.capacity, this.readable := data, capacity, readable;
    }

    function View(): Device
      reads this
    {
      Device(data, capacity, readable)
    }

    method Read(off: int, n: nat) returns (r: Result<bytes, Err>)
      ensures r == ReadAt(data, off, n)
    {
      if off < 0 || off + n > |data| {
        r := Err(Other);
      } else {
        r := Ok(data[off..off + n]);
      }
    }

    method Write(off: nat, p: bytes) returns (ec: Option<Err>)
      modifies this
      ensures match WriteAt(old(View()), off, p)
              case Ok(d) => ec == None && View() == d
              case Err(e) => ec == Some(e) && View() == old(View())
    {
      if off + |p| > capacity {
        return Some(Other);
      }
      data := Splice(data, off, p);
      ec := None;
    }
  }

  /** hash_reader: block by block, the context is fed exactly the requested prefix. */
  method HashReader(f: File, size: int, sha: bytes -> Hash) returns (r: Result<Hash, Err>)
    ensures match ReadPrefix(f.data, size)
            case Ok(prefix) => r == Ok(sha(prefix))
            case Err(e) => r == Err(e)
  {
    var fed: bytes := [];
    var off := 0;
    while off < size
      invariant 0 <= off
      invariant off <= |f.data| && fed == f.data[..off]
      invariant off <= size || (size <= 0 && off == 0)
    {
      var n := BLOCK;
      if n > size - off {
        n := size - off;
      }
      var got := f.Read(off, n);
      if got.Err? {
        return Err(got.error);
      }
      fed := fed + got.value;
      assert fed == f.data[..off + n];
      off := off + n;
    }
    r := Ok(sha(fed));
  }

  /** HashingWriter: a running digest over everything below the write offset. */
  class HashingWriter {
    const w: File
    var offset: int
    var fed: bytes
    var openError: Option<Err>

    ghost predicate Valid()
      reads this, w
    {
      0 <= offset <= |w.data| && fed == w.data[..offset]
    }

    constructor (w: File, resume: nat)
      ensures this.w == w && offset == resume
      ensures match OpenPrefix(w.View(), resume)
              case Ok(prefix) => openError == None && Valid() && fed == prefix
              case Err(e) => openError == Some(e)
    {
      this.w := w;
      offset := resume;
      fed := [];
      openError := None;
      new;
      if resume > 0 {
        if !w.readable {
          openError := Some(Other);
          return;
        }
        var off := 0;
        while off < resume
          invariant 0 <= off <= resume
          invariant off <= |w.data| && fed == w.data[..off]
          invariant openError == None && offset == resume
        {
          var n := BLOCK;
          if n > resume - off {
            n := resume - off;
          }
          var got := w.Read(off, n);
          if got.Err? {
            openError := Some(got.error);
            return;
          }
          fed := fed + got.value;
          assert fed == w.data[..off + n];
          off := off + n;
        }
      }
    }

    method Write(p: bytes, off: int) returns (ec: Option<Err>)
      requires Valid()
      modifies this, w
      ensures Valid() && openError == old(openError)
      ensures off != old(offset) ==> ec == Some(BadFrame)
      ensures off == old(offset) ==>
                match WriteAt(old(w.View()), off, p)
                case Ok(d) => ec == None && w.View() == d && offset == off + |p| && fed == old(fed) + p
                case Err(e) => ec == Some(e)
      ensures ec.Some? ==> w.View() == old(w.View()) && offset == old(offset) && fed == old(fed)
    {
      if off != offset {
        return Some(BadFrame);
      }
      ec := w.Write(off, p);
      if ec.Some? {
        return;
      }
      assert w.data[..off + |p|] == w.data[..off] + w.data[off..off + |p|];
      fed := fed + p;
      offset := offset + |p|;
    }

    /** The digest is the hash of the destination's bytes below the write offset. */
    method Sum(sha: bytes -> Hash) returns (h: Hash)
      requires Valid()
      ensures h == sha(w.data[..offset])
    {
      h := sha(fed);
    }
  }
}
