/**
 * The machine bus: 32 KiB of RAM on pages 0x00..0x7F and 32 KiB of ROM on
 * pages 0x80..0xFF, routed through a 256-entry page map.
 */
module Bus {
  import opened Prelude
  import opened Memory

  /** What a page-map entry routes a 256-byte page to. */
  datatype Page = Unmapped | RAM(pageRelative: nat) | ROM(pageRelative: nat)

  /** Number of pages in each segment, and the first ROM address. */
  const SEGMENT_PAGES: nat := 128
  const ROM_BASE: Word := 0x8000

  /** Why the source aborts a bus write. */
  datatype WriteOutcome = Written | RomWritePanic(address: Word)

  /** An address splits into its page (high byte) and its offset in the page (low byte). */
  function SplitAddress(address: Word): (r: (nat, Offset))
    ensures r.0 < 256
    ensures r.0 * PAGE_SIZE + r.1 == address as int
    ensures r.0 < SEGMENT_PAGES <==> address < ROM_BASE
  {
    ((address >> 8) as int, (address & 0xFF) as int)
  }

  /** Updating inside the front part of a concatenation leaves the back part alone. */
  lemma UpdateInFront(front: seq<Byte>, back: seq<Byte>, i: nat, v: Byte)
    requires i < |front|
    ensures (front + back)[i := v] == front[i := v] + back
  {
  }

  /** Dropping a prefix of the front part of a concatenation keeps the back part whole. */
  lemma DropInFront(front: seq<Byte>, back: seq<Byte>, n: nat)
    requires n <= |front|
    ensures (front + back)[n..] == front[n..] + back
  {
  }

  /** A ROM page-map hit reads the view at the address. */
  lemma RomIndex(ramBytes: seq<Byte>, romBytes: seq<Byte>, address: Word, page: nat, offset: Offset, rel: nat)
    requires |ramBytes| == 0x8000 && |romBytes| == 0x8000
    requires page * PAGE_SIZE + offset == address as int && page >= SEGMENT_PAGES && rel == page - SEGMENT_PAGES
    ensures rel * PAGE_SIZE + offset < |romBytes|
    ensures (ramBytes + romBytes)[address as int] == romBytes[rel * PAGE_SIZE + offset]
  {
  }

  /** A RAM page-map hit writes the view at the address. */
  lemma RamUpdate(ramBytes: seq<Byte>, romBytes: seq<Byte>, address: Word, page: nat, offset: Offset, rel: nat, v: Byte)
    requires |ramBytes| == 0x8000 && |romBytes| == 0x8000
    requires page * PAGE_SIZE + offset == address as int && page < SEGMENT_PAGES && rel == page
    ensures rel * PAGE_SIZE + offset < |ramBytes|
    ensures ramBytes[rel * PAGE_SIZE + offset := v] + romBytes == (ramBytes + romBytes)[address as int := v]
  {
    UpdateInFront(ramBytes, romBytes, address as int, v);
  }

  /** A RAM page-map hit reads the view at the address. */
  lemma RamIndex(ramBytes: seq<Byte>, romBytes: seq<Byte>, address: Word, page: nat, offset: Offset, rel: nat)
    requires |ramBytes| == 0x8000 && |romBytes| == 0x8000
    requires page * PAGE_SIZE + offset == address as int && page < SEGMENT_PAGES && rel == page
    ensures rel * PAGE_SIZE + offset < |ramBytes|
    ensures (ramBytes + romBytes)[address as int] == ramBytes[rel * PAGE_SIZE + offset]
  {
  }

  class Machine {
    const rom: ROMSegment
    const ram: RAMSegment
    const pageMap: seq<Page>
    ghost const Repr: set<object>

    ghost predicate Valid()
      reads this, Repr
    {
      && ram in Repr && rom in Repr && ram.Repr <= Repr && rom.Repr <= Repr
      && ram.Valid() && rom.Valid()
      && |ram.pages| == SEGMENT_PAGES && |rom.pages| == SEGMENT_PAGES
      && ram.Repr !! rom.Repr && ram !in rom.Repr && rom !in ram.Repr
      && |pageMap| == 256
      && (forall p :: 0 <= p < SEGMENT_PAGES ==> pageMap[p] == RAM(p))
      && (forall p :: SEGMENT_PAGES <= p < 256 ==> pageMap[p] == ROM(p - SEGMENT_PAGES))
    }

    /** The whole 64 KiB address space as the CPU sees it: RAM followed by ROM. */
    ghost function View(): seq<Byte>
      reads this, ram, rom
    {
      ram.Bytes + rom.Bytes
    }

    /** The page map of the 32 KiB RAM / 32 KiB ROM layout: pages 0x00..0x7F go to RAM
        pages 0..127, pages 0x80..0xFF to ROM pages 0..127. */
    static method StandardPageMap() returns (pages: seq<Page>)
      ensures |pages| == 256
      ensures forall p :: 0 <= p < SEGMENT_PAGES ==> pages[p] == RAM(p)
      ensures forall p :: SEGMENT_PAGES <= p < 256 ==> pages[p] == ROM(p - SEGMENT_PAGES)
    {
      var table := new Page[256](_ => Unmapped);
      for page := 0 to SEGMENT_PAGES
        modifies table
        invariant forall p :: 0 <= p < page ==> table[p] == RAM(p)
      {
        table[page] := RAM(page);
      }
      for page := SEGMENT_PAGES to 256
        modifies table
        invariant forall p :: 0 <= p < SEGMENT_PAGES ==> table[p] == RAM(p)
        invariant forall p :: SEGMENT_PAGES <= p < page ==> table[p] == ROM(p - SEGMENT_PAGES)
      {
        table[page] := ROM(page - SEGMENT_PAGES);
      }
      pages := table[..];
    }

    /** Builds the machine with zeroed RAM and the ROM image loaded from the start of ROM
        (the rest of ROM zero). An image longer than ROM makes the source panic; that is
        the precondition here. */
    constructor NewRam32kRom32k(romImage: seq<Byte>)
      requires |romImage| <= PAGE_SIZE * SEGMENT_PAGES
      ensures Valid() && fresh(Repr)
      ensures ram.Bytes == seq(PAGE_SIZE * SEGMENT_PAGES, _ => 0)
      ensures rom.Bytes == romImage + seq(PAGE_SIZE * SEGMENT_PAGES - |romImage|, _ => 0)
      ensures forall a :: 0 <= a < |romImage| ==> View()[0x8000 + a] == romImage[a]
    {
      var ramSeg := new RAMSegment(SEGMENT_PAGES);
      var romSeg := new ROMSegment(SEGMENT_PAGES);
      var loaded := romSeg.Load(romImage);
      if loaded.Err? {
        assert false;
      }
      var table := StandardPageMap();
      ram := ramSeg;
      rom := romSeg;
      pageMap := table;
      Repr := {ramSeg, romSeg} + ramSeg.Repr + romSeg.Repr;
    }

    /** `new_32k_ram_32k_rom` with its panic: the ROM segment refuses an image longer than
        32 KiB, which the source turns into a panic (`null` here); any other image gives the
        machine the constructor builds. */
    static method NewRam32kRom32kOrPanic(romImage: seq<Byte>) returns (m: Machine?)
      ensures m == null <==> |romImage| > PAGE_SIZE * SEGMENT_PAGES
      ensures m != null ==> m.Valid() && fresh(m.Repr)
      ensures m != null ==> m.ram.Bytes == seq(PAGE_SIZE * SEGMENT_PAGES, _ => 0)
      ensures m != null ==> m.rom.Bytes == romImage + seq(PAGE_SIZE * SEGMENT_PAGES - |romImage|, _ => 0)
    {
      if |romImage| > PAGE_SIZE * SEGMENT_PAGES {
        return null;
      }
      m := new Machine.NewRam32kRom32k(romImage);
    }

    /** `load_ram` as the source writes it, through the segment's unguarded load: an image that
        fits is copied from address 0; a longer one fills all of RAM and then panics
        (`panicked`). ROM is untouched either way. */
    method LoadRamAsWritten(bytes: seq<Byte>) returns (panicked: bool)
      requires Valid()
      modifies ram, ram.Repr
      ensures Valid()
      ensures panicked <==> |bytes| > 0x8000
      ensures !panicked ==> View() == bytes + old(View())[|bytes|..]
      ensures panicked ==> View() == bytes[..0x8000] + old(View())[0x8000..]
    {
      ghost var n := if |bytes| <= 0x8000 then |bytes| else 0x8000;
      DropInFront(ram.Bytes, rom.Bytes, n);
      panicked := ram.LoadAsWritten(bytes);
      if !panicked {
        assert bytes[..n] == bytes;
      }
      assert ram.Bytes == bytes[..n] + old(ram.Bytes)[n..];
      assert View() == (bytes[..n] + old(ram.Bytes)[n..]) + old(rom.Bytes);
    }

    /** `load_ram` with the segment's corrected load: the image is copied from address 0,
        stopping at the end of RAM; ROM is untouched. */
    method LoadRam(bytes: seq<Byte>)
      requires Valid()
      modifies ram, ram.Repr
      ensures Valid()
      ensures var n := if |bytes| <= 0x8000 then |bytes| else 0x8000;
              View() == bytes[..n] + old(View())[n..]
    {
      ghost var n := if |bytes| <= 0x8000 then |bytes| else 0x8000;
      DropInFront(ram.Bytes, rom.Bytes, n);
      ram.Load(bytes);
      assert View() == (bytes[..n] + old(ram.Bytes)[n..]) + old(rom.Bytes);
    }

    /** The RAM dump: element i is what a read of address i returns. */
    method RamContents() returns (out: seq<Byte>)
      requires Valid()
      ensures |out| == 0x8000
      ensures forall i :: 0 <= i < 0x8000 ==> out[i] == View()[i]
    {
      out := ram.Contents();
    }

    /** A read goes to RAM below 0x8000 and to ROM from there on; it never fails. */
    method Read(address: Word) returns (v: Byte)
      requires Valid()
      ensures v == View()[address as int]
    {
      var (page, offset) := SplitAddress(address);
      match pageMap[page]
      case ROM(rel) =>
        RomIndex(ram.Bytes, rom.Bytes, address, page, offset, rel);
        v := rom.ReadPageOffset(rel, offset);
      case RAM(rel) =>
        RamIndex(ram.Bytes, rom.Bytes, address, page, offset, rel);
        v := ram.ReadPageOffset(rel, offset);
      case Unmapped =>
        assert false;
    }

    /** A write below 0x8000 changes exactly that byte of RAM; a write into ROM is the
        source's panic and changes nothing. */
    method Write(address: Word, v: Byte) returns (r: WriteOutcome)
      requires Valid()
      modifies ram, ram.Repr
      ensures Valid()
      ensures r == Written <==> address < ROM_BASE
      ensures r != Written ==> r == RomWritePanic(address)
      ensures r == Written ==> View() == old(View())[address as int := v]
      ensures r != Written ==> View() == old(View())
      ensures rom.Bytes == old(rom.Bytes)
    {
      var (page, offset) := SplitAddress(address);
      match pageMap[page]
      case RAM(rel) =>
        RamUpdate(ram.Bytes, rom.Bytes, address, page, offset, rel, v);
        ram.WritePageOffset(rel, offset, v);
        r := Written;
      case ROM(_) =>
        assert page >= 128;
        r := RomWritePanic(address);
      case Unmapped =>
        assert false;
    }
  }
}
