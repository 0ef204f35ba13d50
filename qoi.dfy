/**
  The Quite OK Image decoder of src/lib.rs, as a pure specification.

  A stream is a 14-byte header followed by opcodes. Decoding keeps a cursor
  into the input, a 64-slot pixel cache, the previous pixel and the samples
  written so far; `Step` decodes one opcode and `Run` repeats it until the
  output holds width * height * channels samples. Every abort of the source
  (a failed `assert!`, an `unwrap` at end of stream, an `image[index]` write
  out of bounds) is `None` here and `Fail` at the top.
*/
module Qoi {
  import opened Wrappers

  /** An unsigned 8-bit value (Rust's u8); wrapping arithmetic is written out with `% 256`. */
  newtype byte = x: int | 0 <= x < 256

  /** u8 `wrapping_add`: the sum, less 256 when it carries out of eight bits. */
  function WrappingAdd(x: byte, y: byte): (r: byte)
    ensures r as int == if x as int + y as int < 256 then x as int + y as int else x as int + y as int - 256
  {
    ((x as int + y as int) % 256) as byte
  }

  /** u8 `wrapping_sub`: the difference, plus 256 when it borrows. */
  function WrappingSub(x: byte, y: byte): (r: byte)
    ensures r as int == if x as int >= y as int then x as int - y as int else x as int - y as int + 256
  {
    ((x as int - y as int) % 256) as byte
  }

  /** The magic bytes "qoif". */
  const Magic: seq<byte> := [0x71, 0x6F, 0x69, 0x66]

  /** Magic, width, height, channels and colorspace. */
  const HeaderSize: nat := 14

  datatype Header = Header(width: nat, height: nat, channels: byte, colorspace: byte)

  datatype Pixel = Pixel(r: byte, g: byte, b: byte, a: byte)

  /** What `decode` hands back: the header and the samples, or an abort. */
  datatype DecodeResult = Ok(header: Header, image: seq<byte>) | Fail

  // ---------------------------------------------------------------------------
  // Reading the byte stream

  /** One byte at `pos`, and the cursor after it; `None` at end of stream. */
  function ReadU8(input: seq<byte>, pos: nat): Option<(byte, nat)>
  {
    if pos < |input| then Some((input[pos], pos + 1)) else None
  }

  /** Four bytes read one after another and combined most significant first. */
  function ReadU32BE(input: seq<byte>, pos: nat): (r: Option<(nat, nat)>)
    ensures r.Some? <==> pos + 4 <= |input|
    ensures r.Some? ==> r.value.1 == pos + 4
    ensures r.Some? ==> r.value.0 == input[pos] as nat * 0x100_0000 + input[pos + 1] as nat * 0x1_0000
                                     + input[pos + 2] as nat * 0x100 + input[pos + 3] as nat
    ensures r.Some? ==> r.value.0 < 0x1_0000_0000
  {
    var b0 :- ReadU8(input, pos);
    var b1 :- ReadU8(input, b0.1);
    var b2 :- ReadU8(input, b1.1);
    var b3 :- ReadU8(input, b2.1);
    Some((((b0.0 as nat * 256 + b1.0 as nat) * 256 + b2.0 as nat) * 256 + b3.0 as nat, b3.1))
  }

  /** Reads one byte and aborts unless it is `want` (the `assert!`s on the magic). */
  function ExpectU8(input: seq<byte>, pos: nat, want: byte): Option<nat>
  {
    var b :- ReadU8(input, pos);
    if b.0 == want then Some(b.1) else None
  }

  // ---------------------------------------------------------------------------
  // Header

  /**
    The header block: the magic, width and height as big-endian u32, then the
    channels and colorspace bytes. Only the colorspace is validated.
  */
  function ParseHeader(input: seq<byte>): (r: Option<Header>)
    ensures r.Some? <==> |input| >= HeaderSize && input[..4] == Magic && input[13] <= 1
    ensures r.Some? ==>
      && r.value.width == input[4] as nat * 0x100_0000 + input[5] as nat * 0x1_0000
                          + input[6] as nat * 0x100 + input[7] as nat
      && r.value.height == input[8] as nat * 0x100_0000 + input[9] as nat * 0x1_0000
                           + input[10] as nat * 0x100 + input[11] as nat
      && r.value.channels == input[12]
      && r.value.colorspace == input[13]
    ensures r.Some? ==> r.value.width < 0x1_0000_0000 && r.value.height < 0x1_0000_0000
  {
    var p1 :- ExpectU8(input, 0, Magic[0]);
    var p2 :- ExpectU8(input, p1, Magic[1]);
    var p3 :- ExpectU8(input, p2, Magic[2]);
    var p4 :- ExpectU8(input, p3, Magic[3]);
    var width :- ReadU32BE(input, p4);
    var height :- ReadU32BE(input, width.1);
    var channels :- ReadU8(input, height.1);
    var colorspace :- ReadU8(input, channels.1);
    if colorspace.0 <= 1 then Some(Header(width.0, height.0, channels.0, colorspace.0)) else None
  }

  /** The number of samples the output buffer is sized to. */
  function ImageSize(h: Header): nat
  {
    h.width * h.height * h.channels as nat
  }

  /**
    The source computes `width * height * channels` in u32; this model does not
    follow it past 2^32 (a debug build panics, a release build wraps).
  */
  predicate SizeFits(input: seq<byte>)
  {
    match ParseHeader(input)
    case None => true
    case Some(h) => h.width * h.height < 0x1_0000_0000 && ImageSize(h) < 0x1_0000_0000
  }

  // ---------------------------------------------------------------------------
  // Pixels and the cache

  /** The weighted channel sum of `hash64`, computed in usize; it never exceeds 26 * 255. */
  function HashSum(p: Pixel): (s: nat)
    ensures s <= 26 * 255
  {
    p.r as nat * 3 + p.g as nat * 5 + p.b as nat * 7 + p.a as nat * 11
  }

  /** The cache slot of a pixel. */
  function Hash64(p: Pixel): (h: nat)
    ensures h < 64
  {
    HashSum(p) % 64
  }

  /** The samples one pixel contributes: r, g, b, and a only when there are four channels. */
  function Samples(p: Pixel, channels: byte): seq<byte>
  {
    [p.r, p.g, p.b] + (if channels == 4 then [p.a] else [])
  }

  /** `k` copies of `s`, one after another. */
  function Repeat(s: seq<byte>, k: nat): seq<byte>
  {
    if k == 0 then [] else Repeat(s, k - 1) + s
  }

  /** Bits `shift + 1 .. shift` of a DIFF tag, as a number 0..3. */
  function DiffField(tag: byte, shift: nat): (f: int)
    requires shift == 0 || shift == 2 || shift == 4
    ensures 0 <= f < 4
  {
    if shift == 4 then (tag as int / 16) % 4 else if shift == 2 then (tag as int / 4) % 4 else tag as int % 4
  }

  /** QOI_OP_DIFF: each colour channel moves by its 2-bit field minus 2, wrapping at 256. */
  function DiffPixel(prev: Pixel, tag: byte): (p: Pixel)
    ensures p.r as int == (prev.r as int + DiffField(tag, 4) - 2) % 256
    ensures p.g as int == (prev.g as int + DiffField(tag, 2) - 2) % 256
    ensures p.b as int == (prev.b as int + DiffField(tag, 0) - 2) % 256
    ensures p.a == prev.a
  {
    // each delta is a 2-bit field of the tag (bits 5..4, 3..2, 1..0) minus 2, wrapping
    var dr := WrappingSub((tag / 16) % 4, 2);
    var dg := WrappingSub((tag / 4) % 4, 2);
    var db := WrappingSub(tag % 4, 2);
    Pixel(WrappingAdd(prev.r, dr), WrappingAdd(prev.g, dg), WrappingAdd(prev.b, db), prev.a)
  }

  /** The green delta QOI_OP_LUMA computes: the low 5 bits minus 32, wrapping. */
  function LumaDg(tag: byte): (dg: byte)
    ensures 224 <= dg as int <= 255
  {
    WrappingSub(tag % 32, 32)
  }

  /**
    The assertion the LUMA arm makes about its green delta before reading on.
    No byte is both at least 224 and below 32, so it never holds.
  */
  predicate LumaGuard(dg: byte)
  {
    dg >= 224 && dg < 32
  }

  // ---------------------------------------------------------------------------
  // Opcodes

  /** A cache slot: the low 6 bits of an INDEX tag. */
  type Slot = x: byte | x < 64

  /** The run field of a RUN tag, its low 6 bits; 0xFE and 0xFF are not runs, so at most 61. */
  type RunLength = x: byte | x <= 61

  datatype Op =
    | OpRgb(r: byte, g: byte, b: byte)
    | OpRgba(r: byte, g: byte, b: byte, a: byte)
    | OpIndex(slot: Slot)
    | OpDiff(tag: byte)
    | OpLuma(tag: byte)
    | OpRun(length: RunLength)

  /**
    Reads one opcode at `pos`: the exact tags 0xFE and 0xFF first, then the top
    two bits of the tag (`tag >> 6`, written `tag / 64`). The four 2-bit classes
    cover every tag, so the only way to fail is to run out of input.
  */
  function ParseOp(input: seq<byte>, pos: nat): (r: Option<(Op, nat)>)
    ensures r.None? <==>
      || pos >= |input|
      || (input[pos] == 0xFE && pos + 4 > |input|)
      || (input[pos] == 0xFF && pos + 5 > |input|)
    ensures r.Some? ==> pos < r.value.1 <= |input|
    ensures r.Some? && r.value.0.OpIndex? ==> r.value.0.slot == input[pos] % 64
    ensures r.Some? && r.value.0.OpRun? ==> r.value.0.length == input[pos] % 64
  {
    var t :- ReadU8(input, pos);
    var tag := t.0;
    if tag == 0xFE then
      var r :- ReadU8(input, t.1);
      var g :- ReadU8(input, r.1);
      var b :- ReadU8(input, g.1);
      Some((OpRgb(r.0, g.0, b.0), b.1))
    else if tag == 0xFF then
      var r :- ReadU8(input, t.1);
      var g :- ReadU8(input, r.1);
      var b :- ReadU8(input, g.1);
      var a :- ReadU8(input, b.1);
      Some((OpRgba(r.0, g.0, b.0, a.0), a.1))
    else if tag / 64 == 0 then
      Some((OpIndex(tag % 64), t.1))
    else if tag / 64 == 1 then
      Some((OpDiff(tag), t.1))
    else if tag / 64 == 2 then
      Some((OpLuma(tag), t.1))
    else
      Some((OpRun(tag % 64), t.1))
  }

  /**
    The pixel an opcode produces and how many times it is written. A run writes
    `prev` once per iteration of its inner loop and once more after the match,
    so `length + 1` times. LUMA aborts before reading further: the assertion it
    makes, `LumaGuard(LumaDg(tag))`, never holds.
  */
  function Exec(op: Op, prev: Pixel, cache: seq<Pixel>): (r: Option<(Pixel, nat)>)
    requires |cache| == 64
    ensures r.None? <==> op.OpLuma?
    ensures r.Some? && !op.OpRun? ==> r.value.1 == 1
    ensures r.Some? && op.OpRun? ==> r.value.0 == prev && 1 <= r.value.1 <= 62
  {
    match op
    case OpRgb(r, g, b) => Some((Pixel(r, g, b, prev.a), 1))
    case OpRgba(r, g, b, a) => Some((Pixel(r, g, b, a), 1))
    case OpIndex(slot) => Some((cache[slot as int], 1))
    case OpDiff(tag) => Some((DiffPixel(prev, tag), 1))
    case OpLuma(tag) => None
    case OpRun(length) => Some((prev, length as nat + 1))
  }

  // ---------------------------------------------------------------------------
  // The decoding loop

  /** The decoder's state: input cursor, previous pixel, cache, samples written. */
  datatype DecoderState = DecoderState(pos: nat, prev: Pixel, cache: seq<Pixel>, out: seq<byte>)

  /** After the header: cursor 14, prev opaque black, every cache slot zero, no samples. */
  function InitialState(): DecoderState
  {
    DecoderState(HeaderSize, Pixel(0, 0, 0, 255), seq(64, _ => Pixel(0, 0, 0, 0)), [])
  }

  /**
    One opcode: parse it, compute its pixel, write the pixel's samples as many
    times as the opcode says (aborting if that would reach sample `n`), then make
    it the previous pixel and store it at its hash slot.
  */
  function Step(input: seq<byte>, channels: byte, n: nat, st: DecoderState): (r: Option<DecoderState>)
    requires |st.cache| == 64
    ensures r.Some? ==> |st.out| < |r.value.out| <= n && r.value.out[..|st.out|] == st.out
    ensures r.Some? ==> st.pos < r.value.pos <= |input|
    ensures r.Some? ==> |r.value.cache| == 64 && r.value.cache == st.cache[Hash64(r.value.prev) := r.value.prev]
  {
    var parsed :- ParseOp(input, st.pos);
    var done :- Exec(parsed.0, st.prev, st.cache);
    var color := done.0;
    var out := st.out + Repeat(Samples(color, channels), done.1);
    if |out| > n then None
    else Some(DecoderState(parsed.1, color, st.cache[Hash64(color) := color], out))
  }

  /** Decodes opcodes while fewer than `n` samples are written. */
  function Run(input: seq<byte>, channels: byte, n: nat, st: DecoderState): (r: Option<seq<byte>>)
    requires |st.cache| == 64 && |st.out| <= n
    ensures r.Some? ==> |r.value| == n && r.value[..|st.out|] == st.out
    decreases n - |st.out|
  {
    if |st.out| == n then Some(st.out)
    else
      match Step(input, channels, n, st)
      case None => None
      case Some(next) => Run(input, channels, n, next)
  }

  /** The whole of `decode`: the header, then opcodes until the image is full. */
  function Decode(input: seq<byte>): (r: DecodeResult)
    ensures ParseHeader(input).None? ==> r == Fail
    ensures r.Ok? ==> ParseHeader(input) == Some(r.header) && |r.image| == ImageSize(r.header)
  {
    match ParseHeader(input)
    case None => Fail
    case Some(h) =>
      match Run(input, h.channels, ImageSize(h), InitialState())
      case None => Fail
      case Some(image) => Ok(h, image)
  }
}
