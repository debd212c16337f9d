/**
 * `Annotations.StructField.FloatPacker`: how a float field of a packed
 * struct is written into, and read back from, its bits in generated code.
 * Each packer turns the Java expression of a value into the Java
 * expression that packs or unpacks it.
 */
module FloatPacker {

  datatype FloatPacker =
    | Def       // takes all 32 bits
    | Rgba8888  // one 8-bit colour channel

  /** The number of bits a packed value takes. */
  function Size(p: FloatPacker): (bits: int)
    ensures bits == 32 <==> p == Def
    ensures bits == 8 <==> p == Rgba8888
  {
    match p
    case Def => 32
    case Rgba8888 => 8
  }

  /** The text written before and after the value expression when packing. */
  function PackFrame(p: FloatPacker): (string, string)
  {
    match p
    case Def => ("Float.floatToIntBits(", ")")
    case Rgba8888 => ("(", " * 255f)")
  }

  /** The text written before and after the value expression when unpacking. */
  function UnpackFrame(p: FloatPacker): (string, string)
  {
    match p
    case Def => ("Float.intBitsToFloat(", ")")
    case Rgba8888 => ("(", " / 255f)")
  }

  /** The expression `f` written between the two parts of a frame. */
  function Framed(frame: (string, string), f: string): (r: string)
    ensures |r| == |frame.0| + |f| + |frame.1|
    ensures r[..|frame.0|] == frame.0
    ensures r[|frame.0|..|frame.0| + |f|] == f
    ensures r[|frame.0| + |f|..] == frame.1
  {
    var r := frame.0 + f + frame.1;
    assert r[..|frame.0|] == frame.0;
    assert r[|frame.0|..|frame.0| + |f|] == f;
    assert r[|frame.0| + |f|..] == frame.1;
    r
  }

  /** The packing expression for the value expression `f`. */
  function Pack(p: FloatPacker, f: string): (r: string)
    ensures |r| == |PackFrame(p).0| + |f| + |PackFrame(p).1|
    ensures r[..|PackFrame(p).0|] == PackFrame(p).0
    ensures r[|PackFrame(p).0|..|r| - |PackFrame(p).1|] == f
    ensures r[|r| - |PackFrame(p).1|..] == PackFrame(p).1
  {
    Framed(PackFrame(p), f)
  }

  /** The unpacking expression for the packed expression `f`. */
  function Unpack(p: FloatPacker, f: string): (r: string)
    ensures |r| == |UnpackFrame(p).0| + |f| + |UnpackFrame(p).1|
    ensures r[..|UnpackFrame(p).0|] == UnpackFrame(p).0
    ensures r[|UnpackFrame(p).0|..|r| - |UnpackFrame(p).1|] == f
    ensures r[|r| - |UnpackFrame(p).1|..] == UnpackFrame(p).1
  {
    Framed(UnpackFrame(p), f)
  }

  /** A frame around the expression: different expressions give different code. */
  lemma FrameInjective(frame: (string, string), f: string, g: string)
    requires Framed(frame, f) == Framed(frame, g)
    ensures f == g
  {
    assert |f| == |g|;
  }

  /** Two value expressions pack to the same code only when they are the same expression. */
  lemma PackInjective(p: FloatPacker, f: string, g: string)
    ensures Pack(p, f) == Pack(p, g) <==> f == g
  {
    if Pack(p, f) == Pack(p, g) {
      FrameInjective(PackFrame(p), f, g);
    }
  }

  /** Two packed expressions unpack to the same code only when they are the same expression. */
  lemma UnpackInjective(p: FloatPacker, f: string, g: string)
    ensures Unpack(p, f) == Unpack(p, g) <==> f == g
  {
    if Unpack(p, f) == Unpack(p, g) {
      FrameInjective(UnpackFrame(p), f, g);
    }
  }

  /** Packing and unpacking an expression never give the same code. */
  lemma PackDiffersFromUnpack(p: FloatPacker, f: string)
    ensures Pack(p, f) != Unpack(p, f)
  {
    var a, b := Pack(p, f), Unpack(p, f);
    if p == Def {
      assert a[6] == 'f' && b[6] == 'i';
    } else {
      assert a[|f| + 2] == '*' && b[|f| + 2] == '/';
    }
  }
}
