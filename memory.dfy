/** Paged byte storage: fixed 256-byte pages and the RAM and ROM segments built
    from them (src/memory/memory.rs). */
module Memory {
  import opened Prelude

  datatype AccessError = OutOfRange(idx: nat)

  const PAGE_SIZE: nat := 256

  /** An offset inside one page (the source's `u8` page offset). */
  type Offset = i: nat | i < 256

  /** Splits a global index into (page, offset): `(i >> 8, i & 0xff)`. */
  function IdxSplit(globalIdx: nat): (r: (nat, Offset))
    ensures r.0 * PAGE_SIZE + r.1 == globalIdx
  {
    (globalIdx / PAGE_SIZE, globalIdx % PAGE_SIZE)
  }

  /** A segment's bounds check: the page half of the split must name one of its pages. */
  function CheckIdx(pageCount: nat, idx: nat): (r: Result<(nat, Offset), AccessError>)
    ensures r.Ok? <==> idx < PAGE_SIZE * pageCount
    ensures r.Ok? ==> r.value == IdxSplit(idx) && r.value.0 < pageCount
    ensures r.Err? ==> r.error == OutOfRange(idx)
  {
    var split := IdxSplit(idx);
    if split.0 >= pageCount then Err(OutOfRange(idx)) else Ok(split)
  }

  /** An index splits into one of `pageCount` pages exactly when it lies inside them. */
  lemma IdxSplitInRange(globalIdx: nat, pageCount: nat)
    ensures IdxSplit(globalIdx).0 < pageCount <==> globalIdx < PAGE_SIZE * pageCount
  {
  }

  /** Overwriting index i of a half-loaded sequence extends the loaded prefix by one. */
  lemma LoadStep(loaded: seq<Byte>, before: seq<Byte>, i: nat)
    requires i < |loaded| && i < |before|
    ensures (loaded[..i] + before[i..])[i := loaded[i]] == loaded[..i + 1] + before[i + 1..]
  {
  }

  /** A chunk of memory of a fixed size, 256 bytes, updated in place. */
  class MemoryPage {
    const buffer: array<Byte>

    ghost predicate Valid() {
      buffer.Length == PAGE_SIZE
    }

    constructor ()
      ensures Valid() && fresh(buffer)
      ensures forall i :: 0 <= i < PAGE_SIZE ==> buffer[i] == 0
    {
      buffer := new Byte[PAGE_SIZE](_ => 0);
    }

    /** The page's own bounds check. */
    static function CheckIdx(idx: nat): (r: Result<Offset, AccessError>)
      ensures r.Ok? <==> idx < PAGE_SIZE
      ensures r.Ok? ==> r.value == idx
      ensures r.Err? ==> r.error == OutOfRange(idx)
    {
      if idx >= PAGE_SIZE then Err(OutOfRange(idx)) else Ok(idx)
    }

    function PeekUnchecked(idx: Offset): Byte
      requires Valid()
      reads buffer
    {
      buffer[idx]
    }

    method ReadUnchecked(idx: Offset) returns (v: Byte)
      requires Valid()
      ensures v == PeekUnchecked(idx)
    {
      v := buffer[idx];
    }

    method WriteUnchecked(idx: Offset, v: Byte)
      requires Valid()
      modifies buffer
      ensures buffer[..] == old(buffer[..])[idx := v]
    {
      buffer[idx] := v;
    }

    function Contents(): (s: seq<Byte>)
      requires Valid()
      reads buffer
      ensures |s| == PAGE_SIZE && forall i :: 0 <= i < PAGE_SIZE ==> s[i] == PeekUnchecked(i)
    {
      buffer[..]
    }

    /** Checked read: every index below 256 is readable, every other one is out of range. */
    function Peek(idx: nat): (r: Result<Byte, AccessError>)
      requires Valid()
      reads buffer
      ensures r.Ok? <==> idx < PAGE_SIZE
      ensures r.Ok? ==> r.value == buffer[idx]
      ensures r.Err? ==> r.error == OutOfRange(idx)
    {
      match CheckIdx(idx)
      case Ok(i) => Ok(buffer[i])
      case Err(e) => Err(e)
    }

    /** The `&mut` read, which repeats the bounds check inline; it agrees with `Peek`. */
    method Read(idx: nat) returns (r: Result<Byte, AccessError>)
      requires Valid()
      ensures r == Peek(idx)
    {
      if idx >= PAGE_SIZE {
        return Err(OutOfRange(idx));
      }
      r := Ok(buffer[idx]);
    }

    /** Checked write: in range it changes exactly one byte, out of range it changes nothing. */
    method Write(idx: nat, v: Byte) returns (r: Result<(), AccessError>)
      requires Valid()
      modifies buffer
      ensures r.Ok? <==> idx < PAGE_SIZE
      ensures r.Err? ==> r.error == OutOfRange(idx) && buffer[..] == old(buffer[..])
      ensures r.Ok? ==> Peek(idx) == Ok(v)
      ensures r.Ok? ==> forall j :: j != idx ==> Peek(j) == old(Peek(j))
    {
      if idx >= PAGE_SIZE {
        return Err(OutOfRange(idx));
      }
      buffer[idx] := v;
      r := Ok(());
    }
  }

  /** The writable segment: a fixed run of pages, `Bytes` being its flat contents. */
  class RAMSegment {
    const pages: seq<MemoryPage>
    const sizeBytes: nat
    ghost const Repr: set<object>
    ghost var Bytes: seq<Byte>

    ghost predicate Valid()
      reads this, Repr
    {
      && sizeBytes == PAGE_SIZE * |pages|
      && |Bytes| == sizeBytes
      && (forall i :: 0 <= i < |pages| ==> pages[i].Valid() && pages[i].buffer in Repr)
      && (forall i, j :: 0 <= i < j < |pages| ==> pages[i].buffer != pages[j].buffer)
      && (forall k :: 0 <= k < sizeBytes ==> Bytes[k] == pages[k / PAGE_SIZE].buffer[k % PAGE_SIZE])
    }

    constructor (numPages: nat)
      ensures Valid() && fresh(Repr)
      ensures |pages| == numPages && sizeBytes == PAGE_SIZE * numPages
      ensures Bytes == seq(PAGE_SIZE * numPages, _ => 0)
    {
      var ps: seq<MemoryPage> := [];
      ghost var rep: set<object> := {};
      while |ps| < numPages
        invariant |ps| <= numPages && fresh(rep)
        invariant forall i :: 0 <= i < |ps| ==> ps[i].Valid() && ps[i].buffer in rep
        invariant forall i, j :: 0 <= i < j < |ps| ==> ps[i].buffer != ps[j].buffer
        invariant forall i, o :: 0 <= i < |ps| && 0 <= o < PAGE_SIZE ==> ps[i].buffer[o] == 0
      {
        var page := new MemoryPage();
        ps := ps + [page];
        rep := rep + {page.buffer};
      }
      pages := ps;
      sizeBytes := PAGE_SIZE * numPages;
      Repr := rep;
      Bytes := seq(PAGE_SIZE * numPages, _ => 0);
    }

    function PeekPageOffset(page: nat, offset: Offset): (v: Byte)
      requires Valid() && page < |pages|
      reads this, Repr
      ensures v == Bytes[page * PAGE_SIZE + offset]
    {
      pages[page].PeekUnchecked(offset)
    }

    method ReadPageOffset(page: nat, offset: Offset) returns (v: Byte)
      requires Valid() && page < |pages|
      ensures v == Bytes[page * PAGE_SIZE + offset]
    {
      v := pages[page].ReadUnchecked(offset);
    }

    method WritePageOffset(page: nat, offset: Offset, v: Byte)
      requires Valid() && page < |pages|
      modifies this, Repr
      ensures Valid()
      ensures Bytes == old(Bytes)[page * PAGE_SIZE + offset := v]
    {
      pages[page].WriteUnchecked(offset, v);
      Bytes := Bytes[page * PAGE_SIZE + offset := v];
    }

    /** Checked read: fails exactly when the index is past the last byte. */
    function Peek(idx: nat): (r: Result<Byte, AccessError>)
      requires Valid()
      reads this, Repr
      ensures r.Ok? <==> idx < sizeBytes
      ensures r.Ok? ==> r.value == Bytes[idx]
      ensures r.Err? ==> r.error == OutOfRange(idx)
    {
      match CheckIdx(|pages|, idx)
      case Ok(split) => Ok(PeekPageOffset(split.0, split.1))
      case Err(e) => Err(e)
    }

    method Read(idx: nat) returns (r: Result<Byte, AccessError>)
      requires Valid()
      ensures r == Peek(idx)
    {
      match CheckIdx(|pages|, idx)
      case Ok(split) =>
        var v := ReadPageOffset(split.0, split.1);
        r := Ok(v);
      case Err(e) =>
        r := Err(e);
    }

    /** Checked write: in range it changes exactly the addressed byte; out of range nothing. */
    method Write(idx: nat, v: Byte) returns (r: Result<(), AccessError>)
      requires Valid()
      modifies this, Repr
      ensures Valid()
      ensures r.Ok? <==> idx < sizeBytes
      ensures r.Err? ==> r.error == OutOfRange(idx) && Bytes == old(Bytes)
      ensures r.Ok? ==> Bytes == old(Bytes)[idx := v]
    {
      match CheckIdx(|pages|, idx)
      case Ok(split) =>
        WritePageOffset(split.0, split.1, v);
        r := Ok(());
      case Err(e) =>
        r := Err(e);
    }

    /** Bulk load from index 0, stopping at the end of the segment. */
    method Load(bytes: seq<Byte>)
      requires Valid()
      modifies this, Repr
      ensures Valid()
      ensures var n := if |bytes| <= sizeBytes then |bytes| else sizeBytes;
              Bytes == bytes[..n] + old(Bytes)[n..]
    {
      ghost var n := if |bytes| <= sizeBytes then |bytes| else sizeBytes;
      var i := 0;
      while i < |bytes|
        invariant Valid()
        invariant i <= n
        invariant Bytes == bytes[..i] + old(Bytes)[i..]
      {
        if i >= sizeBytes {
          break;
        }
        var split := IdxSplit(i);
        IdxSplitInRange(i, |pages|);
        WritePageOffset(split.0, split.1, bytes[i]);
        LoadStep(bytes, old(Bytes), i);
        i := i + 1;
      }
      assert i == n;
    }

    /** The load exactly as the source guards it (`i > size_bytes`): an image longer than the
        segment reaches index `size_bytes`, whose page does not exist, and the page lookup
        panics. `panicked` reports that abort; the bytes before it have been written. */
    method LoadAsWritten(bytes: seq<Byte>) returns (panicked: bool)
      requires Valid()
      modifies this, Repr
      ensures Valid()
      ensures panicked <==> |bytes| > sizeBytes
      ensures !panicked ==> Bytes == bytes + old(Bytes)[|bytes|..]
      ensures panicked ==> Bytes == bytes[..sizeBytes]
    {
      var i := 0;
      while i < |bytes|
        invariant Valid()
        invariant i <= |bytes| && i <= sizeBytes
        invariant Bytes == bytes[..i] + old(Bytes)[i..]
      {
        if i > sizeBytes {
          break;
        }
        var split := IdxSplit(i);
        IdxSplitInRange(i, |pages|);
        if split.0 >= |pages| {
          return true;
        }
        WritePageOffset(split.0, split.1, bytes[i]);
        LoadStep(bytes, old(Bytes), i);
        i := i + 1;
      }
      assert i == |bytes|;
      assert bytes[..i] == bytes;
      panicked := false;
    }

    /** The flat dump, page after page. */
    method Contents() returns (out: seq<Byte>)
      requires Valid()
      ensures out == Bytes
      ensures |out| == PAGE_SIZE * |pages|
      ensures forall i :: 0 <= i < |out| ==> out[i] == pages[i / PAGE_SIZE].buffer[i % PAGE_SIZE]
    {
      out := [];
      for k := 0 to |pages|
        invariant out == Bytes[..PAGE_SIZE * k]
      {
        var page := pages[k].Contents();
        assert Bytes[..PAGE_SIZE * (k + 1)] == Bytes[..PAGE_SIZE * k] + page by {
          forall i | PAGE_SIZE * k <= i < PAGE_SIZE * (k + 1)
            ensures Bytes[i] == page[i - PAGE_SIZE * k]
          {
            assert i / PAGE_SIZE == k;
          }
        }
        out := out + page;
      }
    }
  }

  /** The read-only segment: its bytes change only through `Load`. */
  class ROMSegment {
    const pages: seq<MemoryPage>
    const sizeBytes: nat
    ghost const Repr: set<object>
    ghost var Bytes: seq<Byte>

    ghost predicate Valid()
      reads this, Repr
    {
      && sizeBytes == PAGE_SIZE * |pages|
      && |Bytes| == sizeBytes
      && (forall i :: 0 <= i < |pages| ==> pages[i].Valid() && pages[i].buffer in Repr)
      && (forall i, j :: 0 <= i < j < |pages| ==> pages[i].buffer != pages[j].buffer)
      && (forall k :: 0 <= k < sizeBytes ==> Bytes[k] == pages[k / PAGE_SIZE].buffer[k % PAGE_SIZE])
    }

    constructor (numPages: nat)
      ensures Valid() && fresh(Repr)
      ensures |pages| == numPages && sizeBytes == PAGE_SIZE * numPages
      ensures Bytes == seq(PAGE_SIZE * numPages, _ => 0)
    {
      var ps: seq<MemoryPage> := [];
      ghost var rep: set<object> := {};
      while |ps| < numPages
        invariant |ps| <= numPages && fresh(rep)
        invariant forall i :: 0 <= i < |ps| ==> ps[i].Valid() && ps[i].buffer in rep
        invariant forall i, j :: 0 <= i < j < |ps| ==> ps[i].buffer != ps[j].buffer
        invariant forall i, o :: 0 <= i < |ps| && 0 <= o < PAGE_SIZE ==> ps[i].buffer[o] == 0
      {
        var page := new MemoryPage();
        ps := ps + [page];
        rep := rep + {page.buffer};
      }
      pages := ps;
      sizeBytes := PAGE_SIZE * numPages;
      Repr := rep;
      Bytes := seq(PAGE_SIZE * numPages, _ => 0);
    }

    function PeekPageOffset(page: nat, offset: Offset): (v: Byte)
      requires Valid() && page < |pages|
      reads this, Repr
      ensures v == Bytes[page * PAGE_SIZE + offset]
    {
      pages[page].PeekUnchecked(offset)
    }

    method ReadPageOffset(page: nat, offset: Offset) returns (v: Byte)
      requires Valid() && page < |pages|
      ensures v == Bytes[page * PAGE_SIZE + offset]
    {
      v := pages[page].ReadUnchecked(offset);
    }

    function Peek(idx: nat): (r: Result<Byte, AccessError>)
      requires Valid()
      reads this, Repr
      ensures r.Ok? <==> idx < sizeBytes
      ensures r.Ok? ==> r.value == Bytes[idx]
      ensures r.Err? ==> r.error == OutOfRange(idx)
    {
      match CheckIdx(|pages|, idx)
      case Ok(split) => Ok(PeekPageOffset(split.0, split.1))
      case Err(e) => Err(e)
    }

    method Read(idx: nat) returns (r: Result<Byte, AccessError>)
      requires Valid()
      ensures r == Peek(idx)
    {
      match CheckIdx(|pages|, idx)
      case Ok(split) =>
        var v := ReadPageOffset(split.0, split.1);
        r := Ok(v);
      case Err(e) =>
        r := Err(e);
    }

    /** The page write `load` performs inline (ROM has no public write). */
    method StorePageOffset(page: nat, offset: Offset, v: Byte)
      requires Valid() && page < |pages|
      modifies this, Repr
      ensures Valid()
      ensures Bytes == old(Bytes)[page * PAGE_SIZE + offset := v]
    {
      pages[page].WriteUnchecked(offset, v);
      Bytes := Bytes[page * PAGE_SIZE + offset := v];
    }

    /** Bulk load from index 0; an image longer than the segment is refused whole. */
    method Load(bytes: seq<Byte>) returns (r: Result<(), AccessError>)
      requires Valid()
      modifies this, Repr
      ensures Valid()
      ensures |bytes| > sizeBytes ==> r == Err(OutOfRange(sizeBytes)) && Bytes == old(Bytes)
      ensures |bytes| <= sizeBytes ==> r == Ok(()) && Bytes == bytes + old(Bytes)[|bytes|..]
    {
      if |bytes| > sizeBytes {
        return Err(OutOfRange(sizeBytes));
      }
      var i := 0;
      while i < |bytes|
        invariant Valid()
        invariant i <= |bytes|
        invariant Bytes == bytes[..i] + old(Bytes)[i..]
      {
        var split := IdxSplit(i);
        IdxSplitInRange(i, |pages|);
        StorePageOffset(split.0, split.1, bytes[i]);
        LoadStep(bytes, old(Bytes), i);
        i := i + 1;
      }
      assert i == |bytes|;
      assert bytes[..i] == bytes;
      r := Ok(());
    }
  }
}
