# A verified model of a Quite OK Image (QOI) decoder

This project models the `decode` function of a small Rust decoder for the
Quite OK Image format, version 1.0 (qoiformat.org). The decoder reads a
14-byte header and then a stream of opcodes. It rebuilds the image as a flat
buffer of `width * height * channels` samples.

The header is the magic `qoif`, the width and the height as big-endian u32,
a channels byte and a colorspace byte. Only the colorspace is checked: it
must be 0 or 1.

The opcode interpreter keeps four things: an input cursor, the output index,
a 64-slot pixel cache (all zero at the start) and a previous pixel (at first
`(0, 0, 0, 255)`). Each tag byte selects one opcode:

- `0xFE` is RGB and `0xFF` is RGBA.
- Otherwise the top two bits decide: `00` is INDEX, `01` is DIFF, `10` is
  LUMA and `11` is RUN.

Each emitted pixel writes r, g, b, and also a when there are four channels.
After every opcode the pixel becomes the previous pixel, and it is stored
in the cache at its hash `(3r + 5g + 7b + 11a) mod 64`.

Every abort of the Rust code is one failure result, `Fail`. That covers a
failed `assert!`, an `unwrap` at end of stream, and an out-of-bounds
`image[index]` write.

Files:

- `wrappers.dfy` (module `Wrappers`): an `Option` type usable with `:-`.
- `qoi.dfy` (module `Qoi`): the specification as functions. It has unsigned
  bytes with explicit `% 256` wrapping, the header parser, the hash, the
  opcode parser `ParseOp` and its effect `Exec`, one loop iteration `Step`,
  the loop `Run`, and `Decode`.
- `qoi_properties.dfy` (module `QoiProperties`): lemmas about that
  specification. They cover each opcode, the cache, the sample layout, and
  the fact that trailing bytes are never read.
- `qoi_decoder.dfy` (module `QoiDecoder`): the imperative decoder. The output
  buffer and the cache are arrays updated in place. `Decode` has a
  `while index < n` loop, and the run opcode has an inner `for` loop. The
  method is proved equal to `Qoi.Decode`.
- `qoi_examples.dfy` (module `QoiExamples`): concrete streams with their
  decoded results.

A RUN tag writes `(tag & 0x3F) + 1` pixels. The inner loop writes
`tag & 0x3F` copies, and the write after the `match` adds one more. So a run
tag gives 1 to 62 pixels, as the published format says, although the inner
loop read alone suggests one pixel fewer.

Where the code and the format's prose disagree, the model follows the code:

- **LUMA always aborts.** The LUMA arm asserts `dg >= 224 && dg < 32` on a
  wrapping `u8`. No value satisfies that, so every tag with top bits `10`
  aborts before its second byte is read.
- **There is one kind of failure.** The code has no separate error types for
  format, truncation and overrun. All of them abort in the same way.

## Model

| member | source | states |
|---|---|---|
| `Qoi.WrappingAdd` | src/lib.rs:90-92 | u8 `wrapping_add`: the sum when it is below 256, otherwise the sum less 256 |
| `Qoi.WrappingSub` | src/lib.rs:86-88 | u8 `wrapping_sub`: the difference when it is not negative, otherwise the difference plus 256 |
| `Qoi.ReadU8` | src/lib.rs:51-57 | definition, no contract: one byte and the cursor after it, or an abort at end of stream; its effect is stated through `Qoi.ReadU32BE` and `Qoi.ParseHeader` |
| `Qoi.ExpectU8` | src/lib.rs:44-47 | definition, no contract: one magic byte read and compared; its effect is stated through `Qoi.ParseHeader` |
| `Qoi.ReadU32BE` | src/lib.rs:49-50 | four bytes are read in order and combined most significant first; the value is below 2^32; it fails exactly when fewer than four bytes remain |
| `Qoi.ParseHeader` | src/lib.rs:43-56 | succeeds exactly when there are at least 14 bytes, bytes 0-3 are `qoif` and byte 13 is at most 1; width is big-endian from bytes 4-7, height from bytes 8-11, channels is byte 12 (unchecked), colorspace is byte 13 |
| `Qoi.ImageSize` | src/lib.rs:59-64 | definition, no contract: the buffer length `width * height * channels`, unbounded (its u32 overflow is ruled out by `Qoi.SizeFits`) |
| `Qoi.SizeFits` | src/lib.rs:59-64 | definition, no contract: the u32 products `width * height` and `width * height * channels` stay below 2^32 (the precondition of `QoiDecoder.Decode`) |
| `Qoi.InitialState` | src/lib.rs:61-63 | definition, no contract: the loop starts after the 14 header bytes with previous pixel `(0, 0, 0, 255)`, all 64 cache slots `(0, 0, 0, 0)` and nothing written |
| `Qoi.Repeat` | src/lib.rs:113-122 | definition, no contract: the run's repeated writes of one pixel; its length and layout are stated by `QoiProperties.RepeatLength` and `QoiProperties.RepeatAt` |
| `Qoi.Samples` | src/lib.rs:66-77 | definition, no contract; its layout is stated by `QoiProperties.SamplesLayout` |
| `Qoi.HashSum` | src/lib.rs:35 | the weighted sum `3r + 5g + 7b + 11a` is at most 26 * 255, so computing it in usize cannot overflow |
| `Qoi.Hash64` | src/lib.rs:34-37 | the cache slot is below 64 |
| `Qoi.DiffField` | src/lib.rs:86-88 | a 2-bit field of a DIFF tag (bits 5..4, 3..2 or 1..0) is a number 0..3 |
| `Qoi.DiffPixel` | src/lib.rs:85-95 | each of r, g, b is the previous value plus its 2-bit field minus 2, mod 256; alpha is the previous alpha |
| `Qoi.LumaDg` | src/lib.rs:97 | the green delta of LUMA, the low 5 bits of the tag minus 32 wrapping, always lies in 224..255 |
| `Qoi.LumaGuard` | src/lib.rs:98 | definition, no contract: the condition the LUMA arm asserts on its green delta (false for every byte, by `QoiProperties.LumaGuardNeverHolds`) |
| `Qoi.ParseOp` | src/lib.rs:79-84 | opcode dispatch fails only for truncation: no tag byte, or `0xFE` without 3 more bytes, or `0xFF` without 4 more; the four 2-bit classes cover every other tag (the `panic!()` at line 119 is unreachable); an INDEX slot and a RUN length are the low 6 bits of the tag; the cursor moves forward and stays within the input |
| `Qoi.Exec` | src/lib.rs:80-121 | only LUMA fails; every other opcode gives one pixel, except RUN, which gives the previous pixel 1 to 62 times |
| `Qoi.Step` | src/lib.rs:65-124 | a successful opcode writes at least one sample and never reaches past `n`; earlier samples are unchanged; the cursor advances within the input; the cache becomes the old cache with the new previous pixel stored at its hash and the other 63 slots unchanged |
| `Qoi.Run` | src/lib.rs:63-65 | on success exactly `n` samples are written and the samples written before are kept |
| `Qoi.Decode` | src/lib.rs:40-128 | a header that does not parse fails the decode; on success the header is the parsed header and the image has exactly `width * height * channels` samples |
| `QoiProperties.RepeatLength` | src/lib.rs:113-116 | `k` copies of a pixel's samples are `k` times as long |
| `QoiProperties.RepeatAt` | src/lib.rs:113-116 | copy `i` of a run's pixel starts at offset `i` times the pixel's sample count, sample by sample |
| `QoiProperties.SamplesLayout` | src/lib.rs:66-77 | a pixel is written as r, g, b, then a only when channels is 4: 3 or 4 consecutive samples |
| `QoiProperties.StepAtEnd` | src/lib.rs:79 | reading a tag at end of stream aborts |
| `QoiProperties.StepRgb` | src/lib.rs:81 | `0xFE` takes the next three bytes as r, g, b in order with the previous alpha and consumes 4 bytes, or aborts if they are missing |
| `QoiProperties.StepRgba` | src/lib.rs:82 | `0xFF` takes the next four bytes as r, g, b, a and consumes 5 bytes, or aborts if they are missing |
| `QoiProperties.StepIndex` | src/lib.rs:84 | a tag below 64 emits the cache slot it names, unchanged, and consumes 1 byte |
| `QoiProperties.StepDiff` | src/lib.rs:85-95 | a tag with top bits `01` emits `DiffPixel` of the previous pixel and consumes 1 byte |
| `QoiProperties.DiffWraps` | src/lib.rs:86-92 | field 0 on a zero channel wraps to 254 |
| `QoiProperties.LumaGuardNeverHolds` | src/lib.rs:97-98 | the condition `dg >= 224 && dg < 32` that the LUMA arm asserts holds for no byte, so it fails for every tag |
| `QoiProperties.StepLuma` | src/lib.rs:96-98 | for every tag with top bits `10` the asserted condition on its green delta is false, and the decode aborts |
| `QoiProperties.StepRun` | src/lib.rs:111-118 | a tag with top bits `11` other than `0xFE`/`0xFF` emits the previous pixel `(tag & 0x3F) + 1` times, which is 1 to 62 times, and consumes 1 byte |
| `QoiProperties.IndexAfterWrite` | src/lib.rs:122-124 | right after a pixel is emitted, an INDEX tag naming its hash gives it back and leaves the cache as it is (the last write to a slot wins) |
| `QoiProperties.ZeroSizeImage` | src/lib.rs:59-65 | an image with zero samples decodes to an empty buffer from its 14 header bytes alone |
| `QoiProperties.RunExtend` | src/lib.rs:65 | a completed opcode loop gives the same result when more bytes follow its input |
| `QoiProperties.TrailingBytesIgnored` | src/lib.rs:65-127 | bytes after the last opcode a successful decode needs, such as the end marker, do not change the result |
| `QoiDecoder.WritePixel` | src/lib.rs:66-77 | the `decoded` closure writes the pixel's 3 or 4 samples at `index` and advances past them; the rest of the buffer is unchanged; a write that would reach the end of the buffer aborts |
| `QoiDecoder.WriteRun` | src/lib.rs:112-116 | the inner loop of RUN writes `length` copies of the pixel after the samples already written, or aborts when a copy would reach the end of the buffer |
| `QoiDecoder.DecodeOpcode` | src/lib.rs:65-125 | one loop iteration, done in place on the output and cache arrays, produces exactly the state `Qoi.Step` gives, and aborts exactly when `Qoi.Step` does |
| `QoiDecoder.Decode` | src/lib.rs:40-128 | the imperative decoder returns exactly `Qoi.Decode(input)` |
| `QoiExamples.TwoRgbaPixels` | src/lib.rs:82 | the 2x1 four-channel stream `FF 0A 14 1E FF FF 0A 14 1E FE` decodes to `[10,20,30,255,10,20,30,254]` |
| `QoiExamples.RgbThenRun` | src/lib.rs:111-122 | an RGB opcode followed by run tag `0xC1` fills a 3x1 three-channel image with three copies of the pixel |
| `QoiExamples.BadMagic` | src/lib.rs:44-47 | a stream that starts with `xoif` fails |
| `QoiExamples.BadColorspace` | src/lib.rs:54 | colorspace 2 fails |
| `QoiExamples.TruncatedRgba` | src/lib.rs:82 | `0xFF` followed by only two bytes fails |
| `QoiExamples.RunOverflows` | src/lib.rs:66-77 | a run that would write past the end of the buffer fails |

## Left out

- src/main.rs: command-line handling, file opening and PNG encoding through
  the external `png` crate. This is I/O and a foreign library.
- `BufReader` and the `byte_order` crate's `NumberReader`. The input is a
  byte sequence read through a cursor, and only the big-endian reading of
  `read_u32` is modelled.
- QoiDecoder.Decode: requires `SizeFits`, so `width * height` and
  `width * height * channels` must both be below 2^32. Past that bound the
  u32 product panics in a debug build and wraps in a release build. Neither
  behaviour is modelled.
- The LUMA arithmetic after the failing assertion (src/lib.rs:99-109). It is
  unreachable, so LUMA is modelled only up to the assertion.
- QoiDecoder.WritePixel: when a pixel's writes would run past the buffer, it
  checks before writing, while the source writes samples until the first
  out-of-bounds index. The outcome is the same abort with no output, so only
  the partial writes on that failing path are not modelled.
- QoiDecoder.WriteRun: on an abort it does not say what the buffer holds,
  because an aborted decode returns no output.
- The `Hash64` trait and the `derive_new` boilerplate. `hash64` is a plain
  function.
- Allocation failure of the output buffer, and the width of `usize`. Without
  `SizeFits` the sample count is an unbounded integer.
- Concurrency and floating point. The source has neither.
