/** `javax.imageio.ImageIO` as the handlers call it. Its plug-ins are
    collaborators whose behaviour is given as functions: which reader
    recognises some bytes, what it decodes, what a writer produces. */
module ImageCodec {

  import opened Wrappers
  import opened Streams
  import opened Images
  import KeyNames

  /** `ImageIO.read`: an image, `null` when no reader recognises the bytes,
      or an `IOException` from the reader. */
  datatype DecodeOutcome = Decoded(image: Decoded) | NoReader | ReadFailed(message: string)

  /** `ImageIO.write`: `true` with the bytes written, `false` when no writer
      handles this format for this image, or an `IOException`. */
  datatype EncodeOutcome = Encoded(bytes: seq<byte>) | NoWriter | WriteFailed(message: string)

  datatype Codec = Codec(
    /** `getFormatName()` of the first reader that recognises the bytes;
        None when there is none, the name is null or sniffing fails. */
    readerFormat: seq<byte> -> Option<string>,
    read: seq<byte> -> DecodeOutcome,
    write: (Image, string) -> EncodeOutcome)

  /** ChatGPT `detectFormatName`: the reader's format name, lower-cased,
      or null. */
  function DetectFormatName(codec: Codec, data: seq<byte>): (f: Option<string>)
    ensures f.None? <==> codec.readerFormat(data).None?
    ensures f.Some? ==> KeyNames.IsLower(f.value) && f.value == KeyNames.ToLower(codec.readerFormat(data).value)
  {
    match codec.readerFormat(data)
    case None => None
    case Some(name) => Some(KeyNames.ToLower(name))
  }

  /** What the ChatGPT handlers upload: the bytes in the output buffer and
      the format name that ends up in `formatName`. */
  datatype Encoding = Encoding(bytes: seq<byte>, format: string)

  /** ChatGPT: `written = ImageIO.write(dest, formatName, baos)`; when false,
      `baos.reset()`, `ImageIO.write(dest, "png", baos)` (its result
      ignored) and `formatName = "png"`. An exception from either write
      is the failure. */
  function EncodeWithFallback(codec: Codec, image: Image, format: string): (r: Result<Encoding, string>)
    ensures r.Success? ==> r.value.format == format || r.value.format == "png"
    ensures r.Success? && r.value.format != format ==> codec.write(image, format) == NoWriter
    ensures r.Success? && codec.write(image, format).NoWriter? ==> r.value.format == "png"
    ensures r.Success? && r.value.bytes != [] ==> codec.write(image, r.value.format) == Encoded(r.value.bytes)
    ensures codec.write(image, format).Encoded? ==> r == Success(Encoding(codec.write(image, format).bytes, format))
    ensures codec.write(image, format).WriteFailed? ==> r == Failure(codec.write(image, format).message)
    ensures codec.write(image, format).NoWriter? ==> (r.Failure? <==> codec.write(image, "png").WriteFailed?)
    ensures codec.write(image, format).NoWriter? && codec.write(image, "png").WriteFailed? ==>
      r == Failure(codec.write(image, "png").message)
  {
    match codec.write(image, format)
    case Encoded(bytes) => Success(Encoding(bytes, format))
    case WriteFailed(message) => Failure(message)
    case NoWriter =>
      match codec.write(image, "png")
      case Encoded(bytes) => Success(Encoding(bytes, "png"))
      case NoWriter => Success(Encoding([], "png"))
      case WriteFailed(message) => Failure(message)
  }

  /** Copilot and Gemini: `ImageIO.write(img, format, out)` with the result
      ignored. A missing writer leaves the output empty. */
  function EncodeIgnoringResult(codec: Codec, image: Image, format: string): (r: Result<seq<byte>, string>)
    ensures r.Success? <==> !codec.write(image, format).WriteFailed?
    ensures r.Success? && r.value != [] ==> codec.write(image, format) == Encoded(r.value)
    ensures codec.write(image, format).NoWriter? ==> r == Success([])
  {
    match codec.write(image, format)
    case Encoded(bytes) => Success(bytes)
    case NoWriter => Success([])
    case WriteFailed(message) => Failure(message)
  }
}
