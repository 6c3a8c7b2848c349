/** `java.awt.image.BufferedImage` as far as the handlers use it: size,
    image type, whether the colour model has alpha, and the pixels. The
    pixels of a decoded image are ARGB words; an image produced by drawing
    through `Graphics2D` records what was drawn and how, since AWT's
    floating-point rendering is not part of this model. */
module Images {

  import opened Wrappers

  /** `BufferedImage.TYPE_CUSTOM` .. `TYPE_BYTE_INDEXED`. */
  const TypeCustom: int := 0
  const TypeIntRgb: int := 1
  const TypeIntArgb: int := 2
  const TypeByteGray: int := 10
  const LastType: int := 13

  /** The predefined types `new BufferedImage(w, h, type)` accepts. */
  predicate KnownType(t: int)
  {
    1 <= t <= LastType
  }

  /** INT_ARGB, INT_ARGB_PRE, 4BYTE_ABGR and 4BYTE_ABGR_PRE carry alpha. */
  predicate AlphaType(t: int)
  {
    t == 2 || t == 3 || t == 6 || t == 7
  }

  /** Java's `int` division, which truncates toward zero. */
  function JavaDiv(a: int, b: int): (q: int)
    requires b > 0
    ensures a >= 0 ==> q == a / b
    ensures a < 0 ==> q == -((-a) / b)
  {
    if a >= 0 then a / b else -((-a) / b)
  }

  /** How a `Graphics2D` drew its source. `QuarterTurn`: the transform is a
      translation by (tx, ty) followed by a 90 degree rotation about the
      point (px2 / 2, py2 / 2). `Scale`: `drawImage(src, 0, 0, w, h)`. */
  datatype DrawOp =
    | QuarterTurn(tx: int, ty: int, px2: int, py2: int, bilinear: bool)
    | Scale(width: int, height: int, bilinear: bool)

  /** Where a quarter turn puts a source point, in doubled coordinates (the
      point (x2 / 2, y2 / 2) of the source goes to (X / 2, Y / 2) of the
      canvas), so the half-pixel pivots stay integral. `Graphics2D` applies
      the rotation about the pivot first and the translation after it. */
  function TurnPoint(op: DrawOp, x2: int, y2: int): (p: (int, int))
    requires op.QuarterTurn?
    ensures x2 == op.px2 && y2 == op.py2 ==> p == (op.px2 + 2 * op.tx, op.py2 + 2 * op.ty)
  {
    (op.px2 + op.py2 - y2 + 2 * op.tx, op.py2 - op.px2 + x2 + 2 * op.ty)
  }

  /** The map is a clockwise quarter turn on screen (y grows downwards):
      a step right becomes a step down and a step down a step left, so
      distances are kept. */
  lemma TurnIsClockwiseQuarter(op: DrawOp, x2: int, y2: int, dx: int, dy: int)
    requires op.QuarterTurn?
    ensures TurnPoint(op, x2 + dx, y2 + dy).0 == TurnPoint(op, x2, y2).0 - dy
    ensures TurnPoint(op, x2 + dx, y2 + dy).1 == TurnPoint(op, x2, y2).1 + dx
  {
  }

  predicate IsCanvasCorner(p: (int, int), width: int, height: int)
  {
    (p.0 == 0 || p.0 == 2 * width) && (p.1 == 0 || p.1 == 2 * height)
  }

  /** The quarter turn takes every corner of the `width` by `height` source
      to a corner of the `cw` by `ch` canvas: the drawn picture covers the
      canvas exactly, with nothing cut off and no blank margin. */
  predicate CoversCanvas(op: DrawOp, width: int, height: int, cw: int, ch: int)
    requires op.QuarterTurn?
  {
    && IsCanvasCorner(TurnPoint(op, 0, 0), cw, ch)
    && IsCanvasCorner(TurnPoint(op, 2 * width, 0), cw, ch)
    && IsCanvasCorner(TurnPoint(op, 0, 2 * height), cw, ch)
    && IsCanvasCorner(TurnPoint(op, 2 * width, 2 * height), cw, ch)
  }

  /** Translating by the source height and turning about the origin, as
      the ChatGPT and Copilot rotations do, always fills the swapped canvas. */
  lemma TranslatedTurnCoversCanvas(width: int, height: int, bilinear: bool)
    ensures CoversCanvas(QuarterTurn(height, 0, 0, 0, bilinear), width, height, height, width)
  {
  }

  datatype Content =
    | Pixels(rows: seq<seq<bv32>>)
    | Drawn(op: DrawOp, source: Image)

  datatype Image = Image(width: int, height: int, imageType: int, hasAlpha: bool, content: Content)
  {
    /** A positive size, a type in range whose alpha agrees with the colour
        model, and a `height` by `width` grid when the pixels are known. */
    predicate WellFormed()
    {
      && width >= 1 && height >= 1
      && 0 <= imageType <= LastType
      && (AlphaType(imageType) ==> hasAlpha)
      && (content.Pixels? ==> IsGrid(content.rows, width, height))
      && (content.Drawn? ==> content.source.WellFormed())
    }
  }

  predicate IsGrid(rows: seq<seq<bv32>>, width: int, height: int)
  {
    |rows| == height && forall y :: 0 <= y < height ==> |rows[y]| == width
  }

  /** What `ImageIO.read` can hand back: a well-formed image with pixels. */
  type Decoded = im: Image | im.WellFormed() && im.content.Pixels?
    witness Image(1, 1, TypeIntRgb, false, Pixels([[0]]))

  function Blank(width: nat, height: nat): (rows: seq<seq<bv32>>)
    ensures IsGrid(rows, width, height)
    ensures forall y, x :: 0 <= y < height && 0 <= x < width ==> rows[y][x] == 0
  {
    seq(height, _ => seq(width, _ => 0))
  }

  /** `new BufferedImage(width, height, type)` for a type a decoded image
      can have: TYPE_CUSTOM (0) is refused with the message AWT gives. */
  function NewImage(width: int, height: int, imageType: int): (r: Result<Image, string>)
    requires width >= 1 && height >= 1 && 0 <= imageType <= LastType
    ensures r.Success? <==> KnownType(imageType)
    ensures r.Success? ==> r.value.WellFormed() && r.value.content.Pixels?
    ensures r.Success? ==> r.value.width == width && r.value.height == height
    ensures r.Success? ==> r.value.imageType == imageType && r.value.hasAlpha == AlphaType(imageType)
    ensures r.Failure? ==> r.error == "Unknown image type 0"
  {
    if imageType == TypeCustom then Failure("Unknown image type 0")
    else Success(Image(width, height, imageType, AlphaType(imageType), Pixels(Blank(width, height))))
  }

  /** ChatGPT: `src.getType() == 0 ? TYPE_INT_ARGB : src.getType()`. */
  function ChatGptDestType(sourceType: int): (t: int)
    requires 0 <= sourceType <= LastType
    ensures KnownType(t)
    ensures sourceType != TypeCustom ==> t == sourceType
    ensures sourceType == TypeCustom ==> t == TypeIntArgb
  {
    if sourceType == TypeCustom then TypeIntArgb else sourceType
  }

  /** Copilot: `hasAlpha ? TYPE_INT_ARGB : TYPE_INT_RGB`. */
  function CopilotDestType(hasAlpha: bool): (t: int)
    ensures KnownType(t) && (AlphaType(t) <==> hasAlpha)
    ensures t == TypeIntArgb || t == TypeIntRgb
  {
    if hasAlpha then TypeIntArgb else TypeIntRgb
  }

  /** Every ChatGPT destination type is one AWT accepts, so the ChatGPT
      handlers never fail where Gemini fails on TYPE_CUSTOM. */
  lemma ChatGptDestTypeAccepted(src: Decoded)
    ensures NewImage(src.height, src.width, ChatGptDestType(src.imageType)).Success?
    ensures NewImage(ResizeTarget, ResizeTarget, ChatGptDestType(src.imageType)).Success?
    ensures NewImage(src.height, src.width, src.imageType).Failure? <==> src.imageType == TypeCustom
  {
  }

  /** The fixed size of every resize variant. */
  const ResizeTarget: int := 128

  /** `canvas.createGraphics()`, a transform, `drawImage(src, ...)`: the
      canvas keeps its size and type and now shows `src` drawn by `op`. */
  function Paint(canvas: Image, op: DrawOp, src: Image): (im: Image)
    requires canvas.WellFormed() && src.WellFormed()
    ensures im.WellFormed() && im.content == Drawn(op, src)
    ensures im.width == canvas.width && im.height == canvas.height
    ensures im.imageType == canvas.imageType && im.hasAlpha == canvas.hasAlpha
  {
    canvas.(content := Drawn(op, src))
  }
}
