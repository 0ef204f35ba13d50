/** Concrete streams and what the decoder specification makes of them. */
module QoiExamples {
  import opened Wrappers
  import opened Qoi

  /** A header for a `width` x 1 image with the given channels and colorspace, widths below 256. */
  function SmallHeader(width: byte, channels: byte, colorspace: byte): seq<byte>
  {
    Magic + [0, 0, 0, width, 0, 0, 0, 1, channels, colorspace]
  }

  /** Two RGBA opcodes fill a 2x1 four-channel image; the second alpha is not inherited. */
  lemma TwoRgbaPixels()
    ensures Decode(SmallHeader(2, 4, 0) + [0xFF, 10, 20, 30, 255, 0xFF, 10, 20, 30, 254])
         == Ok(Header(2, 1, 4, 0), [10, 20, 30, 255, 10, 20, 30, 254])
  {
    var input := SmallHeader(2, 4, 0) + [0xFF, 10, 20, 30, 255, 0xFF, 10, 20, 30, 254];
    assert input[..4] == Magic;
    var h := Header(2, 1, 4, 0);
    assert ParseHeader(input) == Some(h);
    var s0 := InitialState();
    var p1 := Pixel(10, 20, 30, 255);
    var p2 := Pixel(10, 20, 30, 254);
    assert Repeat(Samples(p1, 4), 1) == [10, 20, 30, 255];
    assert Repeat(Samples(p2, 4), 1) == [10, 20, 30, 254];
    var s1 := DecoderState(19, p1, s0.cache[Hash64(p1) := p1], [10, 20, 30, 255]);
    assert Step(input, 4, 8, s0) == Some(s1);
    assert ParseOp(input, 19) == Some((OpRgba(10, 20, 30, 254), 24));
    assert s1.out + Repeat(Samples(p2, 4), 1) == [10, 20, 30, 255, 10, 20, 30, 254];
    var s2 := DecoderState(24, p2, s1.cache[Hash64(p2) := p2], [10, 20, 30, 255, 10, 20, 30, 254]);
    assert Step(input, 4, 8, s1) == Some(s2);
    assert Run(input, 4, 8, s1) == Run(input, 4, 8, s2) == Some(s2.out);
  }

  /** A run tag 0xC1 after an RGB opcode writes its pixel twice more: three pixels from two opcodes. */
  lemma RgbThenRun()
    ensures Decode(SmallHeader(3, 3, 1) + [0xFE, 1, 2, 3, 0xC1])
         == Ok(Header(3, 1, 3, 1), [1, 2, 3, 1, 2, 3, 1, 2, 3])
  {
    var input := SmallHeader(3, 3, 1) + [0xFE, 1, 2, 3, 0xC1];
    assert input[..4] == Magic;
    assert ParseHeader(input) == Some(Header(3, 1, 3, 1));
    var s0 := InitialState();
    var p := Pixel(1, 2, 3, 255);
    assert Repeat(Samples(p, 3), 1) == [1, 2, 3];
    var s1 := DecoderState(18, p, s0.cache[Hash64(p) := p], [1, 2, 3]);
    assert Step(input, 3, 9, s0) == Some(s1);
    assert Repeat(Samples(p, 3), 2) == [1, 2, 3, 1, 2, 3];
    assert ParseOp(input, 18) == Some((OpRun(1), 19));
    assert s1.out + Repeat(Samples(p, 3), 2) == [1, 2, 3, 1, 2, 3, 1, 2, 3];
    var s2 := DecoderState(19, p, s1.cache[Hash64(p) := p], [1, 2, 3, 1, 2, 3, 1, 2, 3]);
    assert Step(input, 3, 9, s1) == Some(s2);
    assert Run(input, 3, 9, s1) == Run(input, 3, 9, s2) == Some(s2.out);
  }

  /** A stream starting "xoif" is refused. */
  lemma BadMagic()
    ensures Decode([0x78, 0x6F, 0x69, 0x66, 0, 0, 0, 1, 0, 0, 0, 1, 4, 0, 0xFF, 1, 2, 3, 4]) == Fail
  {
  }

  /** Colorspace 2 is refused. */
  lemma BadColorspace()
    ensures Decode(SmallHeader(1, 4, 2) + [0xFF, 1, 2, 3, 4]) == Fail
  {
    assert ParseHeader(SmallHeader(1, 4, 2) + [0xFF, 1, 2, 3, 4]) == None;
  }

  /** An RGBA opcode followed by only two bytes aborts. */
  lemma TruncatedRgba()
    ensures Decode(SmallHeader(1, 4, 0) + [0xFF, 1, 2]) == Fail
  {
    var input := SmallHeader(1, 4, 0) + [0xFF, 1, 2];
    assert input[..4] == Magic;
    assert ParseHeader(input) == Some(Header(1, 1, 4, 0));
    assert Step(input, 4, 4, InitialState()) == None;
  }

  /** A run longer than the image aborts instead of being cut short. */
  lemma RunOverflows()
    ensures Decode(SmallHeader(1, 3, 0) + [0xC1]) == Fail
  {
    var input := SmallHeader(1, 3, 0) + [0xC1];
    assert input[..4] == Magic;
    assert ParseHeader(input) == Some(Header(1, 1, 3, 0));
    assert |Repeat(Samples(Pixel(0, 0, 0, 255), 3), 2)| == 6;
    assert Step(input, 3, 3, InitialState()) == None;
  }
}
