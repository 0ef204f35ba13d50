/**
  Properties of the decoder specification in module Qoi: what each opcode
  writes and how it updates the state, the size of a decoded image, and that
  a successful decode never looks past the bytes it needs.
*/
module QoiProperties {
  import opened Wrappers
  import opened Qoi

  // ---------------------------------------------------------------------------
  // Runs of samples

  /** `k` copies of `s` hold `k * |s|` samples. */
  lemma {:induction false} RepeatLength(s: seq<byte>, k: nat)
    ensures |Repeat(s, k)| == k * |s|
  {
    if k > 0 {
      RepeatLength(s, k - 1);
    }
  }

  /** More copies are longer. */
  lemma {:induction false} RepeatLonger(s: seq<byte>, i: nat, j: nat)
    requires i <= j
    ensures |Repeat(s, i)| <= |Repeat(s, j)|
  {
    if i < j {
      RepeatLonger(s, i, j - 1);
    }
  }

  /** Copy `i` of `s` sits at offset `i * |s|`, sample by sample. */
  lemma {:induction false} RepeatAt(s: seq<byte>, k: nat, i: nat, c: nat)
    requires i < k && c < |s|
    ensures i * |s| + c < |Repeat(s, k)| && Repeat(s, k)[i * |s| + c] == s[c]
  {
    RepeatLength(s, k - 1);
    if i < k - 1 {
      RepeatAt(s, k - 1, i, c);
    } else {
      assert i * |s| == |Repeat(s, k - 1)|;
    }
  }

  /**
    A pixel is written as r, g, b, then a only when there are four channels:
    3 or 4 consecutive samples.
  */
  lemma SamplesLayout(p: Pixel, channels: byte)
    ensures |Samples(p, channels)| == if channels == 4 then 4 else 3
    ensures Samples(p, channels)[0] == p.r && Samples(p, channels)[1] == p.g && Samples(p, channels)[2] == p.b
    ensures channels == 4 ==> Samples(p, channels)[3] == p.a
  {
  }

  // ---------------------------------------------------------------------------
  // One opcode

  /**
    `Step` writes `p` `times` times after the samples already written, leaves the
    cursor at `pos`, makes `p` the previous pixel and stores it at its hash slot;
    or it aborts because those samples would not fit in `n`.
  */
  predicate Emits(input: seq<byte>, channels: byte, n: nat, st: DecoderState, pos: nat, p: Pixel, times: nat)
    requires |st.cache| == 64
  {
    var out := st.out + Repeat(Samples(p, channels), times);
    Step(input, channels, n, st)
      == if |out| <= n then Some(DecoderState(pos, p, st.cache[Hash64(p) := p], out)) else None
  }

  /** With no tag byte left, decoding one more opcode aborts. */
  lemma StepAtEnd(input: seq<byte>, channels: byte, n: nat, st: DecoderState)
    requires |st.cache| == 64 && st.pos >= |input|
    ensures Step(input, channels, n, st) == None
  {
  }

  /** QOI_OP_RGB: the next three bytes are r, g, b; alpha comes from the previous pixel. */
  lemma StepRgb(input: seq<byte>, channels: byte, n: nat, st: DecoderState)
    requires |st.cache| == 64 && st.pos < |input| && input[st.pos] == 0xFE
    ensures st.pos + 4 > |input| ==> Step(input, channels, n, st) == None
    ensures st.pos + 4 <= |input| ==>
      Emits(input, channels, n, st, st.pos + 4,
            Pixel(input[st.pos + 1], input[st.pos + 2], input[st.pos + 3], st.prev.a), 1)
  {
  }

  /** QOI_OP_RGBA: the next four bytes are r, g, b, a; nothing is inherited. */
  lemma StepRgba(input: seq<byte>, channels: byte, n: nat, st: DecoderState)
    requires |st.cache| == 64 && st.pos < |input| && input[st.pos] == 0xFF
    ensures st.pos + 5 > |input| ==> Step(input, channels, n, st) == None
    ensures st.pos + 5 <= |input| ==>
      Emits(input, channels, n, st, st.pos + 5,
            Pixel(input[st.pos + 1], input[st.pos + 2], input[st.pos + 3], input[st.pos + 4]), 1)
  {
  }

  /** QOI_OP_INDEX (top bits 00): the tag is the slot, and the slot's pixel is emitted verbatim. */
  lemma StepIndex(input: seq<byte>, channels: byte, n: nat, st: DecoderState)
    requires |st.cache| == 64 && st.pos < |input| && input[st.pos] < 64
    ensures Emits(input, channels, n, st, st.pos + 1, st.cache[input[st.pos]], 1)
  {
  }

  /** QOI_OP_DIFF (top bits 01): the pixel of `DiffPixel`, one byte consumed. */
  lemma StepDiff(input: seq<byte>, channels: byte, n: nat, st: DecoderState)
    requires |st.cache| == 64 && st.pos < |input| && 64 <= input[st.pos] < 128
    ensures Emits(input, channels, n, st, st.pos + 1, DiffPixel(st.prev, input[st.pos]), 1)
  {
  }

  /** A zero field on a zero channel wraps to 254. */
  lemma DiffWraps()
    ensures DiffPixel(Pixel(0, 0, 0, 255), 0x40) == Pixel(254, 254, 254, 255)
  {
  }

  /** The LUMA assertion `dg >= 224 && dg < 32` holds for no byte, whatever the tag. */
  lemma LumaGuardNeverHolds(dg: byte)
    ensures !LumaGuard(dg)
  {
  }

  /** QOI_OP_LUMA (top bits 10): the assertion on the tag's green delta fails, so every such tag aborts the decode. */
  lemma StepLuma(input: seq<byte>, channels: byte, n: nat, st: DecoderState)
    requires |st.cache| == 64 && st.pos < |input| && 128 <= input[st.pos] < 192
    ensures !LumaGuard(LumaDg(input[st.pos]))
    ensures Step(input, channels, n, st) == None
  {
    LumaGuardNeverHolds(LumaDg(input[st.pos]));
  }

  /** QOI_OP_RUN (top bits 11, not 0xFE or 0xFF): the previous pixel, `(tag & 0x3F) + 1` times, 1 to 62. */
  lemma StepRun(input: seq<byte>, channels: byte, n: nat, st: DecoderState)
    requires |st.cache| == 64 && st.pos < |input| && 192 <= input[st.pos] < 0xFE
    ensures 1 <= input[st.pos] as int % 64 + 1 <= 62
    ensures Emits(input, channels, n, st, st.pos + 1, st.prev, input[st.pos] as nat % 64 + 1)
  {
  }

  /**
    The cache keeps the last pixel written to each slot: right after a pixel is
    emitted, an INDEX opcode naming its hash gives it back and changes nothing
    but the output.
  */
  lemma IndexAfterWrite(input: seq<byte>, channels: byte, n: nat, st: DecoderState, st1: DecoderState)
    requires |st.cache| == 64 && Step(input, channels, n, st) == Some(st1)
    requires st1.pos < |input| && input[st1.pos] as int == Hash64(st1.prev)
    requires |st1.out| + |Samples(st1.prev, channels)| <= n
    ensures Step(input, channels, n, st1)
         == Some(DecoderState(st1.pos + 1, st1.prev, st1.cache, st1.out + Samples(st1.prev, channels)))
  {
    var h := Hash64(st1.prev);
    assert st1.cache[h] == st1.prev;
    assert st1.cache[h := st1.prev] == st1.cache;
    assert Repeat(Samples(st1.prev, channels), 1) == Samples(st1.prev, channels);
  }

  // ---------------------------------------------------------------------------
  // The whole stream

  /** An image with no samples is decoded from its header alone. */
  lemma ZeroSizeImage(input: seq<byte>, h: Header)
    requires ParseHeader(input) == Some(h) && ImageSize(h) == 0
    ensures Decode(input) == Ok(h, [])
    ensures Decode(input[..HeaderSize]) == Ok(h, [])
  {
    assert input[..HeaderSize][..4] == input[..4];
  }

  lemma ParseHeaderExtend(input: seq<byte>, tail: seq<byte>)
    requires ParseHeader(input).Some?
    ensures ParseHeader(input + tail) == ParseHeader(input)
  {
    assert (input + tail)[..4] == input[..4];
  }

  lemma ParseOpExtend(input: seq<byte>, tail: seq<byte>, pos: nat)
    requires ParseOp(input, pos).Some?
    ensures ParseOp(input + tail, pos) == ParseOp(input, pos)
  {
  }

  lemma StepExtend(input: seq<byte>, tail: seq<byte>, channels: byte, n: nat, st: DecoderState)
    requires |st.cache| == 64 && Step(input, channels, n, st).Some?
    ensures Step(input + tail, channels, n, st) == Step(input, channels, n, st)
  {
    ParseOpExtend(input, tail, st.pos);
  }

  /** A run of opcodes that completes reads nothing after its last opcode. */
  lemma {:induction false} RunExtend(input: seq<byte>, tail: seq<byte>, channels: byte, n: nat, st: DecoderState)
    requires |st.cache| == 64 && |st.out| <= n && Run(input, channels, n, st).Some?
    ensures Run(input + tail, channels, n, st) == Run(input, channels, n, st)
    decreases n - |st.out|
  {
    if |st.out| < n {
      StepExtend(input, tail, channels, n, st);
      RunExtend(input, tail, channels, n, Step(input, channels, n, st).value);
    }
  }

  /** Bytes after the last opcode a successful decode needs, such as the end marker, change nothing. */
  lemma TrailingBytesIgnored(input: seq<byte>, tail: seq<byte>)
    requires Decode(input).Ok?
    ensures Decode(input + tail) == Decode(input)
  {
    ParseHeaderExtend(input, tail);
    var h := ParseHeader(input).value;
    RunExtend(input, tail, h.channels, ImageSize(h), InitialState());
  }
}
