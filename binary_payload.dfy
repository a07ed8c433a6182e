/** The fixed-layout binary vector payload assembled by binary-test.py:
      offset 0, 2 bytes: marker 0xA9 0xAA
      offset 2, 4 bytes: element count, `struct.pack("i", …)` (signed 32-bit,
                         little-endian on the assumed host)
      offset 6, 2 bytes: filler, both zero
      offset 8, 4 bytes per element: the element's `struct.pack("f", …)` bytes,
                         in input order.
    An element is modelled as the opaque 32-bit word whose little-endian bytes
    fill its slot; the float-to-word conversion is not modelled. */
module BinaryPayload {
  import opened Wrappers

  type byte = x: int | 0 <= x < 256

  /** One element slot, read as a little-endian unsigned 32-bit word. */
  type uint32 = x: int | 0 <= x < 0x1_0000_0000

  const MARKER_0: byte := 0xA9
  const MARKER_1: byte := 0xAA
  const HEADER_SIZE: nat := 8
  const SLOT_SIZE: nat := 4

  const INT32_MIN: int := -0x8000_0000
  const INT32_MAX: int := 0x7FFF_FFFF

  /** The Python exceptions the script can raise. */
  datatype PyError =
    | TypeError    // bytearray.append given something that is not an int
    | ValueError   // bytearray.append given an int outside range(256)
    | StructError  // struct.pack("i", n) with n outside the signed 32-bit range

  predicate IsInt32(n: int) {
    INT32_MIN <= n <= INT32_MAX
  }

  // ----- little-endian integers -----

  function Pow256(n: nat): (p: nat)
    ensures p >= 1
  {
    if n == 0 then 1 else 256 * Pow256(n - 1)
  }

  lemma Pow256Four()
    ensures Pow256(4) == 0x1_0000_0000
  {
  }

  /** The `n` low-order bytes of `u`, least significant first. */
  function LittleEndian(u: nat, n: nat): (r: seq<byte>)
    ensures |r| == n
  {
    if n == 0 then [] else [u % 256] + LittleEndian(u / 256, n - 1)
  }

  /** The unsigned integer whose little-endian bytes are `b`. */
  function FromLittleEndian(b: seq<byte>): (u: nat)
    ensures u < Pow256(|b|)
  {
    if b == [] then 0 else b[0] + 256 * FromLittleEndian(b[1..])
  }

  lemma {:induction false} FromLittleEndianOfLittleEndian(u: nat, n: nat)
    requires u < Pow256(n)
    ensures FromLittleEndian(LittleEndian(u, n)) == u
  {
    if n > 0 {
      var r := LittleEndian(u, n);
      assert r[1..] == LittleEndian(u / 256, n - 1);
      FromLittleEndianOfLittleEndian(u / 256, n - 1);
    }
  }

  lemma {:induction false} LittleEndianOfFromLittleEndian(b: seq<byte>)
    ensures LittleEndian(FromLittleEndian(b), |b|) == b
  {
    if b != [] {
      var u := FromLittleEndian(b);
      assert u % 256 == b[0] && u / 256 == FromLittleEndian(b[1..]);
      LittleEndianOfFromLittleEndian(b[1..]);
    }
  }

  // ----- the count field: struct.pack("i", n) -----

  /** Two's-complement little-endian bytes of a signed 32-bit integer. */
  function PackInt32(n: int): (r: seq<byte>)
    requires IsInt32(n)
  {
    LittleEndian(if n < 0 then n + 0x1_0000_0000 else n, 4)
  }

  function UnpackInt32(b: seq<byte>): (n: int)
    requires |b| == 4
  {
    Pow256Four();
    var u := FromLittleEndian(b);
    if u <= INT32_MAX then u else u - 0x1_0000_0000
  }

  lemma Int32RoundTrip(n: int)
    requires IsInt32(n)
    ensures |PackInt32(n)| == 4 && UnpackInt32(PackInt32(n)) == n
  {
    Pow256Four();
    FromLittleEndianOfLittleEndian(if n < 0 then n + 0x1_0000_0000 else n, 4);
  }

  lemma Int32Canonical(b: seq<byte>)
    requires |b| == 4
    ensures IsInt32(UnpackInt32(b)) && PackInt32(UnpackInt32(b)) == b
  {
    Pow256Four();
    LittleEndianOfFromLittleEndian(b);
  }

  // ----- element slots: struct.pack("f", items[i]) -----

  function PackWord(w: uint32): (r: seq<byte>)
  {
    LittleEndian(w, SLOT_SIZE)
  }

  function UnpackWord(b: seq<byte>): (w: uint32)
    requires |b| == SLOT_SIZE
  {
    Pow256Four();
    FromLittleEndian(b)
  }

  lemma WordRoundTrip(w: uint32)
    ensures |PackWord(w)| == SLOT_SIZE && UnpackWord(PackWord(w)) == w
  {
    Pow256Four();
    FromLittleEndianOfLittleEndian(w, SLOT_SIZE);
  }

  lemma WordCanonical(b: seq<byte>)
    requires |b| == SLOT_SIZE
    ensures PackWord(UnpackWord(b)) == b
  {
    LittleEndianOfFromLittleEndian(b);
  }

  /** The bytes the element loop appends, one slot per element in order. */
  function Slots(items: seq<uint32>): (r: seq<byte>)
    ensures |r| == SLOT_SIZE * |items|
  {
    if items == [] then [] else Slots(items[..|items| - 1]) + PackWord(items[|items| - 1])
  }

  /** The slot bytes of a concatenation are the concatenation of the slot bytes:
      appending elements never rewrites bytes already written. */
  lemma {:induction false} SlotsAppend(a: seq<uint32>, b: seq<uint32>)
    ensures Slots(a + b) == Slots(a) + Slots(b)
  {
    if b == [] {
      assert a + b == a;
    } else {
      var b' := b[..|b| - 1];
      assert (a + b)[..|a + b| - 1] == a + b';
      assert (a + b)[|a + b| - 1] == b[|b| - 1];
      SlotsAppend(a, b');
    }
  }

  /** Element `i` sits in bytes 4i .. 4i+3 of the slot area. */
  lemma {:induction false} SlotAt(items: seq<uint32>, i: nat)
    requires i < |items|
    ensures Slots(items)[SLOT_SIZE * i .. SLOT_SIZE * i + SLOT_SIZE] == PackWord(items[i])
  {
    var init := items[..|items| - 1];
    if i < |items| - 1 {
      SlotAt(init, i);
      assert items[i] == init[i];
    }
  }

  // ----- the whole payload -----

  function Header(count: int): (r: seq<byte>)
    requires IsInt32(count)
  {
    [MARKER_0, MARKER_1] + PackInt32(count) + [0, 0]
  }

  /** The payload the script evidently means to build, or the struct.error
      that `struct.pack("i", len(items))` raises for a count beyond 2^31 - 1. */
  function Payload(items: seq<uint32>): (r: Result<seq<byte>, PyError>)
    ensures r.Ok? <==> |items| <= INT32_MAX
    ensures r.Err? ==> r.error == StructError
    ensures r.Ok? ==> |r.value| == HEADER_SIZE + SLOT_SIZE * |items|
  {
    if |items| <= INT32_MAX then Ok(Header(|items|) + Slots(items)) else Err(StructError)
  }

  /** Decoder used as a specification device: it reads the layout back. */
  function DecodeSlots(s: seq<byte>): (items: seq<uint32>)
    requires |s| % SLOT_SIZE == 0
    ensures |items| == |s| / SLOT_SIZE
  {
    if s == [] then []
    else DecodeSlots(s[..|s| - SLOT_SIZE]) + [UnpackWord(s[|s| - SLOT_SIZE..])]
  }

  function Decode(b: seq<byte>): (r: Option<seq<uint32>>)
  {
    if |b| < HEADER_SIZE || b[0] != MARKER_0 || b[1] != MARKER_1 || b[6] != 0 || b[7] != 0 then None
    else
      var count := UnpackInt32(b[2..6]);
      if count < 0 || |b| != HEADER_SIZE + SLOT_SIZE * count then None
      else Some(DecodeSlots(b[HEADER_SIZE..]))
  }

  lemma {:induction false} DecodeSlotsOfSlots(items: seq<uint32>)
    ensures DecodeSlots(Slots(items)) == items
  {
    if items != [] {
      var init := items[..|items| - 1];
      var s := Slots(items);
      assert s[..|s| - SLOT_SIZE] == Slots(init);
      assert s[|s| - SLOT_SIZE..] == PackWord(items[|items| - 1]);
      WordRoundTrip(items[|items| - 1]);
      DecodeSlotsOfSlots(init);
    }
  }

  lemma {:induction false} SlotsOfDecodeSlots(s: seq<byte>)
    requires |s| % SLOT_SIZE == 0
    ensures Slots(DecodeSlots(s)) == s
  {
    if s != [] {
      var items := DecodeSlots(s);
      var init := s[..|s| - SLOT_SIZE];
      assert items[..|items| - 1] == DecodeSlots(init);
      WordCanonical(s[|s| - SLOT_SIZE..]);
      SlotsOfDecodeSlots(init);
    }
  }

  /** The layout the builder produces, field by field. */
  lemma PayloadLayout(items: seq<uint32>)
    requires |items| <= INT32_MAX
    ensures Payload(items).Ok?
    ensures var b := Payload(items).value;
      |b| == HEADER_SIZE + SLOT_SIZE * |items| &&
      b[0] == 0xA9 && b[1] == 0xAA &&
      b[2..6] == PackInt32(|items|) && UnpackInt32(b[2..6]) == |items| &&
      b[6] == 0 && b[7] == 0 &&
      forall i :: 0 <= i < |items| ==>
        b[HEADER_SIZE + SLOT_SIZE * i .. HEADER_SIZE + SLOT_SIZE * (i + 1)] == PackWord(items[i])
  {
    var b := Payload(items).value;
    var h := Header(|items|);
    Int32RoundTrip(|items|);
    assert b[2..6] == h[2..6] == PackInt32(|items|);
    forall i | 0 <= i < |items|
      ensures b[HEADER_SIZE + SLOT_SIZE * i .. HEADER_SIZE + SLOT_SIZE * (i + 1)] == PackWord(items[i])
    {
      SlotAt(items, i);
      assert b[HEADER_SIZE..] == Slots(items);
    }
  }

  /** Decoding a payload gives back its elements. */
  lemma DecodePayload(items: seq<uint32>)
    requires |items| <= INT32_MAX
    ensures Decode(Payload(items).value) == Some(items)
  {
    var b := Payload(items).value;
    PayloadLayout(items);
    assert b[HEADER_SIZE..] == Slots(items);
    DecodeSlotsOfSlots(items);
  }

  /** Whatever decodes is the payload of what it decodes to. */
  lemma PayloadOfDecode(b: seq<byte>)
    requires Decode(b).Some?
    ensures Payload(Decode(b).value) == Ok(b)
  {
    var items := Decode(b).value;
    var count := UnpackInt32(b[2..6]);
    Int32Canonical(b[2..6]);
    SlotsOfDecodeSlots(b[HEADER_SIZE..]);
    assert |items| == count;
    assert b == [b[0], b[1]] + b[2..6] + [b[6], b[7]] + b[HEADER_SIZE..];
  }

  /** The layout determines its elements, and only the canonical encoding of a
      sequence decodes to it. */
  lemma PayloadDecodeIff(items: seq<uint32>, b: seq<byte>)
    ensures Decode(b) == Some(items) <==> Payload(items) == Ok(b)
  {
    if Payload(items) == Ok(b) {
      DecodePayload(items);
    }
    if Decode(b) == Some(items) {
      PayloadOfDecode(b);
    }
  }

  /** The buffer only grows: every intermediate state of the builder is a
      prefix of the final payload. */
  lemma PayloadPrefixStable(items: seq<uint32>, j: nat)
    requires |items| <= INT32_MAX && j <= |items|
    ensures Header(|items|) + Slots(items[..j]) <= Payload(items).value
  {
    SlotsAppend(items[..j], items[j..]);
    assert items[..j] + items[j..] == items;
  }

  /** The count field of the script's own seven-element vector. */
  lemma SevenElementCountField(items: seq<uint32>)
    requires |items| == 7
    ensures Payload(items).Ok? && Payload(items).value[..8] == [0xA9, 0xAA, 7, 0, 0, 0, 0, 0]
  {
  }

  /** Lines 14-24 of binary-test.py with the two `append` calls read as the
      evident two-byte extensions, the buffer grown in place. */
  method BuildPayload(items: seq<uint32>) returns (r: Result<seq<byte>, PyError>)
    ensures r == Payload(items)
  {
    var b: seq<byte> := [];
    b := b + [MARKER_0, MARKER_1];
    if |items| > INT32_MAX {
      return Err(StructError);
    }
    b := b + PackInt32(|items|);
    b := b + [0, 0];
    var i := 0;
    while i < |items|
      invariant 0 <= i <= |items|
      invariant b == Header(|items|) + Slots(items[..i])
    {
      assert items[..i + 1][..i] == items[..i];
      b := b + PackWord(items[i]);
      i := i + 1;
    }
    assert items[..i] == items;
    return Ok(b);
  }

  // ----- the script as written -----

  /** A Python argument to `bytearray.append`. */
  datatype PyValue = PyInt(i: int) | PyList(elements: seq<int>)

  /** `bytearray.append` accepts a single int in range(256). */
  function ByteArrayAppend(b: seq<byte>, x: PyValue): (r: Result<seq<byte>, PyError>)
    ensures r.Ok? <==> x.PyInt? && 0 <= x.i < 256
    ensures r.Ok? ==> r.value == b + [x.i]
    ensures x.PyList? ==> r == Err(TypeError)
  {
    match x
    case PyInt(i) => if 0 <= i < 256 then Ok(b + [i]) else Err(ValueError)
    case PyList(_) => Err(TypeError)
  }

  /** One statement of binary-test.py lines 14-24. */
  datatype Step =
    | AppendStep(arg: PyValue)   // a call of `append` on the buffer (lines 15 and 21)
    | CountStep                  // extending the buffer by the packed element count (line 19)
    | ElementsStep               // the loop extending the buffer by each packed element (lines 23-24)

  /** Runs the statements in order on buffer `b`; the first exception ends the run. */
  function RunSteps(steps: seq<Step>, items: seq<uint32>, b: seq<byte>): Result<seq<byte>, PyError>
    decreases |steps|
  {
    if steps == [] then Ok(b)
    else
      var next :- match steps[0]
        case AppendStep(arg) => ByteArrayAppend(b, arg)
        case CountStep => if |items| <= INT32_MAX then Ok(b + PackInt32(|items|)) else Err(StructError)
        case ElementsStep => Ok(b + Slots(items));
      RunSteps(steps[1..], items, next)
  }

  /** The script as written: lines 15 and 21 pass a list to `bytearray.append`. */
  const SCRIPT_AS_WRITTEN: seq<Step> :=
    [AppendStep(PyList([0xA9, 0xAA])), CountStep, AppendStep(PyList([0, 0])), ElementsStep]

  function BuildPayloadAsWritten(items: seq<uint32>): Result<seq<byte>, PyError>
  {
    RunSteps(SCRIPT_AS_WRITTEN, items, [])
  }

  /** As written, the script raises TypeError at line 15 for every input, the
      script's own seven-element list included. */
  lemma AsWrittenRaisesTypeError(items: seq<uint32>)
    ensures BuildPayloadAsWritten(items) == Err(TypeError)
  {
  }
}
