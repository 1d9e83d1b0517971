/**
 * The configuration's string-descriptor block (src/configuration/string_descriptor.rs): three
 * string descriptors (section 9.6.7 of the USB 2.0 specification) laid out back to back in a
 * 128-byte array, each a length byte, the descriptor type 0x03 and the string as UTF-16LE.
 * Strings are kept as sequences of UTF-16 code units.
 */
module StringDescriptors {
  import opened Wrappers

  const BLOCK_SIZE: nat := 128
  const HEADER_SIZE: nat := 2
  const STRING_DESCRIPTOR_TYPE: u8 := 0x03
  /** At most this many code units of each string are written. */
  const MANUFACTURER_CAP: nat := 30
  const PRODUCT_CAP: nat := 62
  const SERIAL_NUMBER_CAP: nat := 30

  // ----- UTF-16LE ------------------------------------------------------------------------

  /** Pairs of bytes read as little-endian code units; an odd trailing byte is dropped. */
  function LeU16s(bytes: seq<u8>): (units: seq<u16>)
    ensures |units| == |bytes| / 2
  {
    if |bytes| < 2 then [] else [bytes[0] as int + 0x100 * bytes[1] as int] + LeU16s(bytes[2..])
  }

  /** Each code unit as two little-endian bytes. */
  function LeBytes(units: seq<u16>): (bytes: seq<u8>)
    ensures |bytes| == 2 * |units|
  {
    if units == [] then [] else [units[0] % 0x100, units[0] / 0x100] + LeBytes(units[1..])
  }

  /** Code unit `i` is written as its low byte at `2 * i` and its high byte at `2 * i + 1`. */
  lemma {:induction false} LeBytesAt(units: seq<u16>, i: nat)
    requires i < |units|
    ensures LeBytes(units)[2 * i] == units[i] % 0x100
    ensures LeBytes(units)[2 * i + 1] == units[i] / 0x100
  {
    if i > 0 {
      LeBytesAt(units[1..], i - 1);
      assert LeBytes(units)[2..] == LeBytes(units[1..]);
    }
  }

  /** Reading back the bytes of a string gives the string. */
  lemma {:induction false} LeRoundTrip(units: seq<u16>)
    ensures LeU16s(LeBytes(units)) == units
  {
    if units != [] {
      var bytes := LeBytes(units);
      assert bytes[2..] == LeBytes(units[1..]);
      LeRoundTrip(units[1..]);
      assert bytes[0] as int + 0x100 * bytes[1] as int == units[0];
    }
  }

  /** The first `max` code units of `s`. */
  function Take(s: seq<u16>, max: nat): (t: seq<u16>)
    ensures |t| <= max && t <= s
    ensures |s| <= max ==> t == s
  {
    if |s| <= max then s else s[..max]
  }

  /** `str_to_utf16`: the first `max` code units, two little-endian bytes each. */
  function StrToUtf16(s: seq<u16>, max: nat): (bytes: seq<u8>)
    ensures |bytes| == 2 * |Take(s, max)| <= 2 * max
    ensures LeU16s(bytes) == Take(s, max)
  {
    LeRoundTrip(Take(s, max));
    LeBytes(Take(s, max))
  }

  // ----- Parsing -------------------------------------------------------------------------

  /**
   * Where part `index` starts: each part's first byte is its length, header included. `None`
   * when a length byte on the way lies outside the block.
   */
  function PartStart(d: seq<u8>, index: nat): Option<nat>
  {
    if index == 0 then Some(0)
    else
      match PartStart(d, index - 1)
      case None => None
      case Some(s) => if s < |d| then Some(s + d[s]) else None
  }

  /** The earlier starts exist and lie inside the block whenever a later one exists. */
  lemma {:induction false} PartStartDefined(d: seq<u8>, index: nat, k: nat)
    requires PartStart(d, index).Some? && k < index
    ensures PartStart(d, k).Some? && PartStart(d, k).value < |d|
    decreases index
  {
    if k < index - 1 {
      PartStartDefined(d, index - 1, k);
    }
  }

  /**
   * Part `index` can be read: its start exists, its length byte covers at least the header,
   * and the part ends inside the block (otherwise the subtraction or the slice panics).
   */
  predicate PartParsable(d: seq<u8>, index: nat)
  {
    match PartStart(d, index)
    case None => false
    case Some(s) => s < |d| && d[s] >= HEADER_SIZE && s + d[s] <= |d|
  }

  /** Part `index` decoded: the code units of the bytes after its two-byte header. */
  function DecodePart(d: seq<u8>, index: nat): seq<u16>
    requires PartParsable(d, index)
  {
    var s := PartStart(d, index).value;
    LeU16s(d[s + HEADER_SIZE .. s + d[s]])
  }

  // ----- Encoding ------------------------------------------------------------------------

  /** One string descriptor: length (header included), type 0x03, then the string's bytes. */
  function Record(bytes: seq<u8>): (r: seq<u8>)
    requires |bytes| + HEADER_SIZE < 0x100
    ensures |r| == |bytes| + HEADER_SIZE && r[0] == |r| && r[1] == STRING_DESCRIPTOR_TYPE
    ensures r[HEADER_SIZE..] == bytes
  {
    [|bytes| + HEADER_SIZE, STRING_DESCRIPTOR_TYPE] + bytes
  }

  /** Every part's record length fits its length byte. */
  predicate Recordable(parts: seq<seq<u8>>)
  {
    forall i :: 0 <= i < |parts| ==> |parts[i]| + HEADER_SIZE < 0x100
  }

  /** The records of the first `n` parts, back to back from offset 0. */
  function Layout(parts: seq<seq<u8>>, n: nat): seq<u8>
    requires Recordable(parts) && n <= |parts|
  {
    if n == 0 then [] else Layout(parts, n - 1) + Record(parts[n - 1])
  }

  /** The three strings, each truncated to its cap and converted to bytes, in block order. */
  function EncodedParts(manufacturer: seq<u16>, product: seq<u16>, serialNumber: seq<u16>)
    : (parts: seq<seq<u8>>)
    ensures |parts| == 3 && Recordable(parts)
  {
    var m := StrToUtf16(manufacturer, MANUFACTURER_CAP);
    var p := StrToUtf16(product, PRODUCT_CAP);
    var s := StrToUtf16(serialNumber, SERIAL_NUMBER_CAP);
    [m, p, s]
  }

  /** The three records fit in the block; otherwise the encoder's slicing panics. */
  predicate Fits(manufacturer: seq<u16>, product: seq<u16>, serialNumber: seq<u16>)
  {
    |Layout(EncodedParts(manufacturer, product, serialNumber), 3)| <= BLOCK_SIZE
  }

  function Zeros(n: nat): (z: seq<u8>)
    ensures |z| == n && forall i :: 0 <= i < n ==> z[i] == 0
  {
    seq(n, _ => 0)
  }

  /** The block `as_ffi_descriptor` produces: the three records, then zeros. */
  function EncodeSpec(manufacturer: seq<u16>, product: seq<u16>, serialNumber: seq<u16>)
    : (block: seq<u8>)
    requires Fits(manufacturer, product, serialNumber)
    ensures |block| == BLOCK_SIZE
  {
    var layout := Layout(EncodedParts(manufacturer, product, serialNumber), 3);
    layout + Zeros(BLOCK_SIZE - |layout|)
  }

  // ----- Round trip ----------------------------------------------------------------------

  /** The layout of the first `j` parts is a prefix of the layout of the first `n`. */
  lemma {:induction false} LayoutPrefix(parts: seq<seq<u8>>, j: nat, n: nat)
    requires Recordable(parts) && j <= n <= |parts|
    ensures Layout(parts, j) <= Layout(parts, n)
    decreases n
  {
    if j < n {
      LayoutPrefix(parts, j, n - 1);
    }
  }

  /** In a block that begins with the layout of `n` parts, part `i <= n` starts after the first `i` records. */
  lemma {:induction false} PartStartInLayout(parts: seq<seq<u8>>, n: nat, d: seq<u8>, i: nat)
    requires Recordable(parts) && i <= n <= |parts| && Layout(parts, n) <= d
    ensures PartStart(d, i) == Some(|Layout(parts, i)|)
    decreases i
  {
    if i > 0 {
      PartStartInLayout(parts, n, d, i - 1);
      LayoutPrefix(parts, i, n);
      var s := |Layout(parts, i - 1)|;
      assert d[s] == Layout(parts, i)[s] == Record(parts[i - 1])[0];
    }
  }

  /** A block that begins with `pre` and then a record holds the record's length and bytes right after `pre`. */
  lemma RecordInBlock(pre: seq<u8>, bytes: seq<u8>, d: seq<u8>)
    requires |bytes| + HEADER_SIZE < 0x100 && pre + Record(bytes) <= d
    ensures d[|pre|] == |bytes| + HEADER_SIZE
    ensures d[|pre| + HEADER_SIZE .. |pre| + HEADER_SIZE + |bytes|] == bytes
  {
    var r := Record(bytes);
    assert d[|pre|] == (pre + r)[|pre|] == r[0];
    assert d[|pre| + HEADER_SIZE .. |pre| + HEADER_SIZE + |bytes|] == (pre + r)[|pre| + HEADER_SIZE ..];
  }

  /** A part whose start, length byte and bytes are known decodes to those bytes' code units. */
  lemma DecodeAt(d: seq<u8>, i: nat, s: nat, bytes: seq<u8>)
    requires PartStart(d, i) == Some(s) && s < |d| && d[s] as int == |bytes| + HEADER_SIZE <= |d| - s
    requires d[s + HEADER_SIZE .. s + d[s]] == bytes
    ensures PartParsable(d, i) && DecodePart(d, i) == LeU16s(bytes)
  {
  }

  /** Writing the next record over the zeros after the layout of `k` parts gives the layout of `k + 1`. */
  lemma LayoutStep(parts: seq<seq<u8>>, k: nat, before: seq<u8>, after: seq<u8>)
    requires Recordable(parts) && k < |parts| && |Layout(parts, k + 1)| <= BLOCK_SIZE
    requires before == Layout(parts, k) + Zeros(BLOCK_SIZE - |Layout(parts, k)|)
    requires after == before[..|Layout(parts, k)|] + Record(parts[k]) + before[|Layout(parts, k + 1)|..]
    ensures after == Layout(parts, k + 1) + Zeros(BLOCK_SIZE - |Layout(parts, k + 1)|)
  {
    var pre := Layout(parts, k);
    assert before[..|pre|] == pre;
    assert before[|Layout(parts, k + 1)|..] == Zeros(BLOCK_SIZE - |Layout(parts, k + 1)|);
  }

  /** Each of the first `n` parts of a block that begins with their layout decodes to that part's code units. */
  lemma DecodeLayout(parts: seq<seq<u8>>, n: nat, d: seq<u8>, i: nat)
    requires Recordable(parts) && i < n <= |parts| && Layout(parts, n) <= d
    ensures PartParsable(d, i)
    ensures DecodePart(d, i) == LeU16s(parts[i])
  {
    PartStartInLayout(parts, n, d, i);
    LayoutPrefix(parts, i + 1, n);
    RecordInBlock(Layout(parts, i), parts[i], d);
    DecodeAt(d, i, |Layout(parts, i)|, parts[i]);
  }

  /**
   * Round trip: decoding part `i` of an encoded block gives the `i`-th string truncated to its
   * cap (30, 62 and 30 code units).
   */
  lemma EncodeDecodeRoundTrip(manufacturer: seq<u16>, product: seq<u16>, serialNumber: seq<u16>)
    requires Fits(manufacturer, product, serialNumber)
    ensures var block := EncodeSpec(manufacturer, product, serialNumber);
      PartParsable(block, 0) && PartParsable(block, 1) && PartParsable(block, 2)
    ensures var block := EncodeSpec(manufacturer, product, serialNumber);
      DecodePart(block, 0) == Take(manufacturer, MANUFACTURER_CAP) &&
      DecodePart(block, 1) == Take(product, PRODUCT_CAP) &&
      DecodePart(block, 2) == Take(serialNumber, SERIAL_NUMBER_CAP)
  {
    var parts := EncodedParts(manufacturer, product, serialNumber);
    var block := EncodeSpec(manufacturer, product, serialNumber);
    DecodeLayout(parts, 3, block, 0);
    DecodeLayout(parts, 3, block, 1);
    DecodeLayout(parts, 3, block, 2);
  }

  /**
   * The caps allow more than the block holds: 30, 62 and 30 code units take 60, 124 and 60
   * bytes, 250 with the headers, so a long enough product name alone makes encoding panic.
   */
  lemma CapsCanOverrun()
    ensures !Fits(seq(30, _ => 0x41), seq(62, _ => 0x41), seq(30, _ => 0x41))
  {
    var parts := EncodedParts(seq(30, _ => 0x41), seq(62, _ => 0x41), seq(30, _ => 0x41));
    assert |Layout(parts, 1)| == 62;
    assert |Layout(parts, 2)| == 62 + 126;
  }

  // ----- The container -------------------------------------------------------------------

  /** `StringDescriptor`: the three strings, as code units. */
  class StringDescriptor {
    var manufacturer: seq<u16>
    var product: seq<u16>
    var serialNumber: seq<u16>

    /** `StringDescriptor::new`: decodes the three parts of a 128-byte block. */
    constructor New(descriptor: seq<u8>)
      requires |descriptor| == BLOCK_SIZE
      requires PartParsable(descriptor, 0) && PartParsable(descriptor, 1) && PartParsable(descriptor, 2)
      ensures manufacturer == DecodePart(descriptor, 0)
      ensures product == DecodePart(descriptor, 1)
      ensures serialNumber == DecodePart(descriptor, 2)
    {
      var m := ExtractPart(descriptor, 0);
      var p := ExtractPart(descriptor, 1);
      var s := ExtractPart(descriptor, 2);
      manufacturer, product, serialNumber := m, p, s;
    }

    /** `set_manufacturer`. */
    method SetManufacturer(s: seq<u16>)
      modifies this
      ensures manufacturer == s && product == old(product) && serialNumber == old(serialNumber)
    {
      manufacturer := s;
    }

    /** `set_product`. */
    method SetProduct(s: seq<u16>)
      modifies this
      ensures product == s && manufacturer == old(manufacturer) && serialNumber == old(serialNumber)
    {
      product := s;
    }

    /** `set_serial_number`. */
    method SetSerialNumber(s: seq<u16>)
      modifies this
      ensures serialNumber == s && manufacturer == old(manufacturer) && product == old(product)
    {
      serialNumber := s;
    }

    /**
     * `extract_part`: walks the length bytes to the start of part `index`, then decodes the
     * part. The index must be below 3 (the source asserts it).
     */
    static method ExtractPart(descriptors: seq<u8>, index: nat) returns (part: seq<u16>)
      requires index < 3 && PartParsable(descriptors, index)
      ensures part == DecodePart(descriptors, index)
    {
      var start := 0;
      for k := 0 to index
        invariant PartStart(descriptors, k) == Some(start)
      {
        PartStartDefined(descriptors, index, k);
        start := start + descriptors[start] as nat;
      }
      var len := descriptors[start] as nat - HEADER_SIZE;
      assert descriptors[start + HEADER_SIZE ..][..len] == descriptors[start + HEADER_SIZE .. start + descriptors[start] as nat];
      part := LeU16s(descriptors[start + HEADER_SIZE ..][..len]);
    }

    /**
     * `set_part`: writes one record at `offset`, leaving every other byte of the block as it
     * was. The record's length must fit its byte (the source unwraps the conversion).
     */
    static method SetPart(block: array<u8>, offset: nat, s: seq<u8>)
      requires |s| + HEADER_SIZE < 0x100 && offset + HEADER_SIZE + |s| <= block.Length
      modifies block
      ensures block[offset] as int == |s| + HEADER_SIZE
      ensures block[..] == old(block[..offset]) + Record(s) + old(block[offset + HEADER_SIZE + |s|..])
    {
      block[offset] := (|s| + HEADER_SIZE) as u8;
      block[offset + 1] := STRING_DESCRIPTOR_TYPE;
      forall i | 0 <= i < |s| {
        block[offset + HEADER_SIZE + i] := s[i];
      }
      assert block[..] == old(block[..offset]) + Record(s) + old(block[offset + HEADER_SIZE + |s|..]);
    }

    /**
     * `as_ffi_descriptor`: the three strings, truncated to their caps, as consecutive records
     * from offset 0, the rest of the block zero. The records must fit in the block.
     */
    method AsFfiDescriptor() returns (descriptor: array<u8>)
      requires Fits(manufacturer, product, serialNumber)
      ensures fresh(descriptor)
      ensures descriptor[..] == EncodeSpec(manufacturer, product, serialNumber)
    {
      var parts := EncodedParts(manufacturer, product, serialNumber);
      descriptor := new u8[BLOCK_SIZE](_ => 0);
      var offset := 0;
      for k := 0 to 3
        invariant offset == |Layout(parts, k)| <= BLOCK_SIZE
        invariant descriptor[..] == Layout(parts, k) + Zeros(BLOCK_SIZE - offset)
      {
        LayoutPrefix(parts, k + 1, 3);
        ghost var before := descriptor[..];
        SetPart(descriptor, offset, parts[k]);
        LayoutStep(parts, k, before, descriptor[..]);
        offset := offset + descriptor[offset] as nat;
      }
    }
  }
}
