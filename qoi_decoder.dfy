/**
  The imperative `decode` of src/lib.rs: a cursor into the input, the output
  buffer and the 64-slot cache as arrays updated in place, and the previous
  pixel as a local. It is proved to compute `Qoi.Decode`.
*/
module QoiDecoder {
  import opened Wrappers
  import opened Qoi
  import QoiProperties

  /**
    The `decoded` closure: writes r, g, b (and a when there are four channels)
    at `index` and moves `index` past them. A write that would reach the end of
    the buffer aborts, and then nothing is written.
  */
  method WritePixel(image: array<byte>, index: nat, color: Pixel, channels: byte) returns (ok: bool, next: nat)
    requires index <= image.Length
    modifies image
    ensures ok <==> index + |Samples(color, channels)| <= image.Length
    ensures ok ==> next == index + |Samples(color, channels)|
    ensures ok ==> image[..next] == old(image[..index]) + Samples(color, channels)
    ensures ok ==> image[next..] == old(image[next..])
    ensures !ok ==> next == index && image[..] == old(image[..])
  {
    var width := if channels == 4 then 4 else 3;
    if index + width > image.Length {
      return false, index;
    }
    next := index;
    image[next] := color.r;
    next := next + 1;
    image[next] := color.g;
    next := next + 1;
    image[next] := color.b;
    next := next + 1;
    if channels == 4 {
      image[next] := color.a;
      next := next + 1;
    }
    ok := true;
  }

  /**
    The inner `for` loop of QOI_OP_RUN: `length` more copies of `color`. It
    aborts, as the source does, when a copy would reach the end of the buffer.
  */
  method WriteRun(image: array<byte>, index: nat, color: Pixel, channels: byte, length: nat) returns (ok: bool, next: nat)
    requires index <= image.Length
    modifies image
    ensures ok <==> index + |Repeat(Samples(color, channels), length)| <= image.Length
    ensures next <= image.Length
    ensures ok ==> next == index + |Repeat(Samples(color, channels), length)|
    ensures ok ==> image[..next] == old(image[..index]) + Repeat(Samples(color, channels), length)
  {
    ghost var pixel := Samples(color, channels);
    next := index;
    for i := 0 to length
      invariant next <= image.Length
      invariant image[..next] == old(image[..index]) + Repeat(pixel, i)
    {
      var written;
      written, next := WritePixel(image, next, color, channels);
      if !written {
        QoiProperties.RepeatLonger(pixel, i + 1, length);
        return false, next;
      }
    }
    ok := true;
  }

  /**
    One pass of the `while index < n` loop: read a tag, compute its pixel
    (writing the copies of a run as it goes), write the pixel, then make it the
    previous pixel and store it in the cache at its hash.
  */
  method DecodeOpcode(input: seq<byte>, channels: byte, image: array<byte>, memory: array<Pixel>,
                      cursor: nat, prev: Pixel, index: nat)
    returns (ok: bool, cursor': nat, prev': Pixel, index': nat)
    requires index < image.Length && memory.Length == 64
    modifies image, memory
    ensures index' <= image.Length
    ensures ok ==> Step(input, channels, image.Length, DecoderState(cursor, prev, old(memory[..]), old(image[..index])))
                   == Some(DecoderState(cursor', prev', memory[..], image[..index']))
    ensures !ok ==> Step(input, channels, image.Length, DecoderState(cursor, prev, old(memory[..]), old(image[..index])))
                    == None
  {
    ghost var before := DecoderState(cursor, prev, memory[..], image[..index]);
    ghost var n := image.Length;
    index' := index;
    cursor' := cursor;
    prev' := prev;
    if cursor' >= |input| {
      return false, cursor', prev', index';
    }
    var tag := input[cursor'];
    cursor' := cursor' + 1;
    var color: Pixel;
    ghost var op: Op;
    ghost var times: nat := 1;
    if tag == 0xFE {
      if cursor' + 3 > |input| {
        return false, cursor', prev', index';
      }
      color := Pixel(input[cursor'], input[cursor' + 1], input[cursor' + 2], prev.a);
      op := OpRgb(input[cursor'], input[cursor' + 1], input[cursor' + 2]);
      cursor' := cursor' + 3;
    } else if tag == 0xFF {
      if cursor' + 4 > |input| {
        return false, cursor', prev', index';
      }
      color := Pixel(input[cursor'], input[cursor' + 1], input[cursor' + 2], input[cursor' + 3]);
      op := OpRgba(input[cursor'], input[cursor' + 1], input[cursor' + 2], input[cursor' + 3]);
      cursor' := cursor' + 4;
    } else if tag / 64 == 0 {
      color := memory[tag % 64];
      op := OpIndex(tag % 64);
    } else if tag / 64 == 1 {
      color := DiffPixel(prev, tag);
      op := OpDiff(tag);
    } else if tag / 64 == 2 {
      // QOI_OP_LUMA: its assertion on the green delta never holds.
      QoiProperties.LumaGuardNeverHolds(LumaDg(tag));
      return false, cursor', prev', index';
    } else {
      var length := (tag % 64) as nat;
      ok, index' := WriteRun(image, index', prev, channels, length);
      if !ok {
        QoiProperties.RepeatLonger(Samples(prev, channels), length, length + 1);
        return false, cursor', prev', index';
      }
      color := prev;
      op := OpRun(tag % 64);
      times := length + 1;
    }
    assert ParseOp(input, cursor) == Some((op, cursor'));
    assert Exec(op, prev, before.cache) == Some((color, times));
    assert image[..index'] == before.out + Repeat(Samples(color, channels), times - 1);
    ok, index' := WritePixel(image, index', color, channels);
    if !ok {
      return;
    }
    assert image[..index'] == before.out + Repeat(Samples(color, channels), times);
    prev' := color;
    memory[Hash64(color)] := color;
    assert memory[..] == before.cache[Hash64(color) := color];
  }

  /** The whole decoder. Every abort of the source returns `Fail`. */
  method Decode(input: seq<byte>) returns (r: DecodeResult)
    requires SizeFits(input)
    ensures r == Qoi.Decode(input)
  {
    var parsed := ParseHeader(input);
    if parsed.None? {
      return Fail;
    }
    var header := parsed.value;
    var channels := header.channels;
    var cursor: nat := HeaderSize;
    var n := ImageSize(header);
    var image := new byte[n];
    var memory := new Pixel[64](_ => Pixel(0, 0, 0, 0));
    var prev := Pixel(0, 0, 0, 255);
    var index: nat := 0;
    assert memory[..] == InitialState().cache;
    while index < n
      invariant index <= n == image.Length
      invariant memory.Length == 64
      invariant Run(input, channels, n, DecoderState(cursor, prev, memory[..], image[..index]))
             == Run(input, channels, n, InitialState())
      decreases n - index
    {
      var ok;
      ok, cursor, prev, index := DecodeOpcode(input, channels, image, memory, cursor, prev, index);
      if !ok {
        return Fail;
      }
    }
    r := Ok(header, image[..]);
  }
}
