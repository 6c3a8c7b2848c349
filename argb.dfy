/** The conversion of a channel level to a byte and back, on its own so
    that the solver meets it without the packing axioms around it. */
module Levels {

  lemma LevelRoundTrip(v: int)
    requires 0 <= v < 256
    ensures (v as bv8) as int == v
  {
  }
}

/** 32-bit ARGB words as `BufferedImage.getRGB` returns them and `setRGB`
    takes them, and the three grayscale pixel rules built on them.

    Luminosity is 0.21 R + 0.72 G + 0.07 B. It is kept exact here as the
    integer sum S = 21 R + 72 G + 7 B in hundredths: `Math.round` of S/100 is
    floor((S + 50) / 100), and the `(int)` cast of a non-negative S/100 is
    S / 100. */
module Argb {

  import Levels

  /** `(p >> 24) & 0xff` (the same byte for `>>` and `>>>`). */
  function Alpha(p: bv32): bv8
  {
    ((p >> 24) & 0xFF) as bv8
  }

  /** `(p >> 16) & 0xff` */
  function Red(p: bv32): bv8
  {
    ((p >> 16) & 0xFF) as bv8
  }

  /** `(p >> 8) & 0xff` */
  function Green(p: bv32): bv8
  {
    ((p >> 8) & 0xFF) as bv8
  }

  /** `p & 0xff` */
  function Blue(p: bv32): bv8
  {
    (p & 0xFF) as bv8
  }

  /** `(a << 24) | (r << 16) | (g << 8) | b`, which is also what
      `new Color(r, g, b, a).getRGB()` yields. Unpacking gives the channels
      back. */
  function Pack(a: bv8, r: bv8, g: bv8, b: bv8): (p: bv32)
    ensures Alpha(p) == a && Red(p) == r && Green(p) == g && Blue(p) == b
  {
    (a as bv32 << 24) | (r as bv32 << 16) | (g as bv32 << 8) | b as bv32
  }

  /** Packing the four unpacked channels of a word rebuilds the word. */
  lemma PackUnpack(p: bv32)
    ensures Pack(Alpha(p), Red(p), Green(p), Blue(p)) == p
  {
  }

  /** The Java `int` value of a channel, and back. */
  predicate IsLevel(v: int)
  {
    0 <= v <= 255
  }

  function ToByte(v: int): (c: bv8)
    requires IsLevel(v)
    ensures c as int == v
  {
    Levels.LevelRoundTrip(v);
    v as bv8
  }

  lemma ToByteOfLevel(c: bv8)
    ensures ToByte(c as int) == c
  {
  }

  /** A pixel whose three colour channels are equal. */
  predicate IsGrey(p: bv32)
  {
    Red(p) == Green(p) == Blue(p)
  }

  /** 100 times the luminosity of (r, g, b). */
  function WeightedSum(r: bv8, g: bv8, b: bv8): (s: int)
    ensures 0 <= s <= 25500
    ensures r == g == b ==> s == 100 * (r as int)
  {
    21 * (r as int) + 72 * (g as int) + 7 * (b as int)
  }

  /** `(int) Math.round(0.21 * r + 0.72 * g + 0.07 * b)`: the nearest
      integer, halves rounded up. */
  function RoundedLuma(r: bv8, g: bv8, b: bv8): (v: int)
    ensures IsLevel(v)
    ensures 100 * v - 50 <= WeightedSum(r, g, b) < 100 * v + 50
    ensures r == g == b ==> v == r as int
  {
    (WeightedSum(r, g, b) + 50) / 100
  }

  /** `(int) (0.21 * r + 0.72 * g + 0.07 * b)`: the integer part. */
  function TruncatedLuma(r: bv8, g: bv8, b: bv8): (v: int)
    ensures IsLevel(v)
    ensures 100 * v <= WeightedSum(r, g, b) < 100 * v + 100
    ensures r == g == b ==> v == r as int
  {
    WeightedSum(r, g, b) / 100
  }

  /** Rounding and truncation differ by at most one step, never downwards. */
  lemma RoundingVersusTruncation(r: bv8, g: bv8, b: bv8)
    ensures TruncatedLuma(r, g, b) <= RoundedLuma(r, g, b) <= TruncatedLuma(r, g, b) + 1
  {
  }

  /** `if (v > 255) v = 255; if (v < 0) v = 0;` */
  function Clamp(v: int): (c: int)
    ensures IsLevel(c)
    ensures IsLevel(v) ==> c == v
    ensures v > 255 ==> c == 255
    ensures v < 0 ==> c == 0
  {
    if v > 255 then 255 else if v < 0 then 0 else v
  }

  /** The clamp after truncation never changes the value. */
  lemma ClampIsNoOp(r: bv8, g: bv8, b: bv8)
    ensures Clamp(TruncatedLuma(r, g, b)) == TruncatedLuma(r, g, b)
  {
  }

  /** ChatGPT: grey from the rounded luminosity, alpha passed through. */
  function ChatGptGray(p: bv32): (q: bv32)
    ensures IsGrey(q) && Alpha(q) == Alpha(p)
    ensures Red(q) as int == RoundedLuma(Red(p), Green(p), Blue(p))
  {
    var v := ToByte(RoundedLuma(Red(p), Green(p), Blue(p)));
    Pack(Alpha(p), v, v, v)
  }

  /** Copilot: grey from the rounded luminosity; alpha kept when the source
      colour model has alpha, else forced to 0xFF. */
  function CopilotGray(p: bv32, hasAlpha: bool): (q: bv32)
    ensures IsGrey(q) && Red(q) as int == RoundedLuma(Red(p), Green(p), Blue(p))
    ensures Alpha(q) == if hasAlpha then Alpha(p) else 0xFF
  {
    var v := ToByte(RoundedLuma(Red(p), Green(p), Blue(p)));
    if hasAlpha then Pack(Alpha(p), v, v, v) else Pack(0xFF, v, v, v)
  }

  /** Gemini: grey from the truncated, clamped luminosity through
      `java.awt.Color`, alpha passed through. */
  function GeminiGray(p: bv32): (q: bv32)
    ensures IsGrey(q) && Alpha(q) == Alpha(p)
    ensures Red(q) as int == TruncatedLuma(Red(p), Green(p), Blue(p))
  {
    var v := ToByte(Clamp(TruncatedLuma(Red(p), Green(p), Blue(p))));
    Pack(Alpha(p), v, v, v)
  }

  /** A grey pixel is a fixed point of the ChatGPT and Gemini rules. */
  lemma {:induction false} GreyIsFixed(p: bv32)
    requires IsGrey(p)
    ensures ChatGptGray(p) == p && GeminiGray(p) == p
  {
    ToByteOfLevel(Red(p));
    PackUnpack(p);
  }

  /** ... and of the Copilot rule when alpha is kept, or already opaque. */
  lemma {:induction false} GreyIsFixedCopilot(p: bv32, hasAlpha: bool)
    requires IsGrey(p) && (hasAlpha || Alpha(p) == 0xFF)
    ensures CopilotGray(p, hasAlpha) == p
  {
    ToByteOfLevel(Red(p));
    PackUnpack(p);
  }

  /** So each rule is idempotent. */
  lemma {:induction false} GrayIdempotent(p: bv32, hasAlpha: bool)
    ensures ChatGptGray(ChatGptGray(p)) == ChatGptGray(p)
    ensures CopilotGray(CopilotGray(p, hasAlpha), hasAlpha) == CopilotGray(p, hasAlpha)
    ensures GeminiGray(GeminiGray(p)) == GeminiGray(p)
  {
    GreyIsFixed(ChatGptGray(p));
    GreyIsFixedCopilot(CopilotGray(p, hasAlpha), hasAlpha);
    GreyIsFixed(GeminiGray(p));
  }

  /** With alpha, Copilot and ChatGPT produce the same word; without, they
      agree exactly when the source alpha is already 0xFF. */
  lemma {:induction false} CopilotMatchesChatGpt(p: bv32, hasAlpha: bool)
    ensures CopilotGray(p, hasAlpha) == ChatGptGray(p) <==> hasAlpha || Alpha(p) == 0xFF
  {
    var q, c := CopilotGray(p, hasAlpha), ChatGptGray(p);
    if hasAlpha || Alpha(p) == 0xFF {
      PackUnpack(q);
      PackUnpack(c);
    }
  }

  /** Gemini never yields a brighter grey than ChatGPT, and at most one
      level darker. */
  lemma {:induction false} GeminiAtMostOneDarker(p: bv32)
    ensures Red(ChatGptGray(p)) as int - 1 <= Red(GeminiGray(p)) as int <= Red(ChatGptGray(p)) as int
  {
    RoundingVersusTruncation(Red(p), Green(p), Blue(p));
  }

  /** The rules disagree on the opaque pixel (r, g, b) = (3, 0, 0): the
      luminosity is 0.63, which rounds to 1 and truncates to 0. */
  lemma RoundingAndTruncationDisagree()
    ensures ChatGptGray(0xFF03_0000) != GeminiGray(0xFF03_0000)
  {
    var p: bv32 := 0xFF03_0000;
    assert Red(p) == 3 && Green(p) == 0 && Blue(p) == 0;
    assert WeightedSum(3, 0, 0) == 63;
  }
}
