/** The three Copilot handlers (rotate, grayscale, resize). Validation runs
    before the try block: a null request map escapes as a
    NullPointerException, a missing or empty `bucket` or `key` and then an
    inline payload are refused with a map holding only `error`. Inside the
    try: HEAD, the output format and content type from the key's suffix,
    the spool decision against max(5 MiB, free memory / 2), the source read
    straight from S3 or through a /tmp copy, decode, transform, encode
    (ignoring whether a writer was found), PUT. Errors are reported by kind:
    "S3 object not found: ", "S3 error: ", "I/O error: ". The `finally`
    block closes the S3 stream and deletes both temporary files.

    As for the ChatGPT handlers, the functions `Pipeline`, `Convert` and
    `Upload` say what the outcome is, and the methods perform it. */
module CopilotHandlers {

  import opened Wrappers
  import opened Streams
  import opened Storage
  import opened HostEnv
  import opened Envelope
  import opened Spool
  import opened KeyNames
  import opened Images
  import opened ImageCodec
  import opened PixelLoop
  import opened Argb
  import opened Jobs

  const MissingNamesMessage: string := "Missing 'bucket' or 'key' in input."
  const InlineMessage: string := "Inline image payloads are not supported. Provide S3 bucket/key only."
  const NullInputException: string := "java.lang.NullPointerException"

  /** `asString(input.get(name))` is neither null nor empty. */
  predicate HasName(input: map<string, Value>, name: string)
  {
    Field(input, name).Some? && Text(input[name]) != ""
  }

  /** `containsKey("imageBytes") || containsKey("imageBase64")`: the key
      counts even when its value is null. */
  predicate HasInlinePayload(input: map<string, Value>)
  {
    "imageBytes" in input || "imageBase64" in input
  }

  /** The checks before the try block, in their order: names first, then
      inline payloads. */
  function ValidateRequest(input: map<string, Value>): (r: Result<Loc, string>)
    ensures r.Success? <==> HasName(input, "bucket") && HasName(input, "key") && !HasInlinePayload(input)
    ensures !(HasName(input, "bucket") && HasName(input, "key")) ==> r == Failure(MissingNamesMessage)
    ensures HasName(input, "bucket") && HasName(input, "key") && HasInlinePayload(input) ==> r == Failure(InlineMessage)
    ensures r.Success? ==> r.value == Loc(Text(input["bucket"]), Text(input["key"]))
    ensures r.Success? ==> r.value.bucket != "" && r.value.key != ""
  {
    if !(HasName(input, "bucket") && HasName(input, "key")) then Failure(MissingNamesMessage)
    else if HasInlinePayload(input) then Failure(InlineMessage)
    else Success(Loc(Text(input["bucket"]), Text(input["key"])))
  }

  /** An empty key is refused even when the request also carries an inline
      payload: the inline check is never reached. */
  lemma NamesCheckedBeforePayload()
    ensures ValidateRequest(map["bucket" := Str("b"), "key" := Str(""), "imageBytes" := Null]) == Failure(MissingNamesMessage)
    ensures ValidateRequest(map["bucket" := Str("b"), "key" := Str("k"), "imageBytes" := Null]) == Failure(InlineMessage)
  {
    var m1 := map["bucket" := Str("b"), "key" := Str(""), "imageBytes" := Null];
    assert !HasName(m1, "key");
    var m2 := map["bucket" := Str("b"), "key" := Str("k"), "imageBytes" := Null];
    assert HasName(m2, "bucket") && HasName(m2, "key");
  }

  /** The catch clauses for storage errors: `NoSuchKeyException` with its
      message, any other `S3Exception` with the service's error message. */
  function StorageMessage(e: StorageError): (m: string)
    ensures e.NoSuchKey? ==> m == "S3 object not found: " + e.message
    ensures e.ServiceError? ==> m == "S3 error: " + e.detail
  {
    match e
    case NoSuchKey(message) => "S3 object not found: " + message
    case ServiceError(_, detail) => "S3 error: " + detail
  }

  /** The temporary file names start with "rotate", "gray" or "resize",
      a word that begins the transform's output prefix too. */
  function TempPrefix(t: Transform): (p: string)
    ensures 4 <= |p| <= |OutputPrefix(t)| && p[..4] == OutputPrefix(t)[..4]
  {
    match t
    case Rotate => "rotate"
    case Grayscale => "gray"
    case Resize => "resize"
  }

  /** The Copilot grey rule for one colour model. */
  function GrayRule(hasAlpha: bool): (rule: bv32 -> bv32)
    ensures forall p :: rule(p) == CopilotGray(p, hasAlpha)
  {
    p => CopilotGray(p, hasAlpha)
  }

  /** The image each handler builds. Every output is TYPE_INT_ARGB when the
      source colour model has alpha and TYPE_INT_RGB otherwise. Rotation
      draws the source bilinearly on a canvas with width and height swapped,
      translated by the source height and turned a quarter; resizing draws
      it bilinearly onto 128 by 128; the grayscale image is as large as the
      source and holds the Copilot grey of each source word. */
  function Transformed(t: Transform, src: Decoded): (im: Image)
    ensures im.WellFormed() && im.imageType == CopilotDestType(src.hasAlpha) && im.hasAlpha == src.hasAlpha
    ensures t == Rotate ==> im.width == src.height && im.height == src.width
    ensures t == Resize ==> im.width == ResizeTarget && im.height == ResizeTarget
    ensures t == Grayscale ==> im.width == src.width && im.height == src.height
    ensures t != Grayscale ==> im.content.Drawn? && im.content.source == src
    ensures t == Grayscale ==> im.content.Pixels? && forall y, x :: 0 <= y < src.height && 0 <= x < src.width ==>
      var p, q := src.content.rows[y][x], im.content.rows[y][x];
      && IsGrey(q) && Red(q) as int == RoundedLuma(Red(p), Green(p), Blue(p))
      && Alpha(q) == if src.hasAlpha then Alpha(p) else 0xFF
  {
    var destType := CopilotDestType(src.hasAlpha);
    match t
    case Rotate =>
      Paint(NewImage(src.height, src.width, destType).value, QuarterTurn(src.height, 0, 0, 0, true), src)
    case Resize =>
      Paint(NewImage(ResizeTarget, ResizeTarget, destType).value, Scale(ResizeTarget, ResizeTarget, true), src)
    case Grayscale =>
      NewImage(src.width, src.height, destType).value.(content := Pixels(MapGrid(src.content.rows, GrayRule(src.hasAlpha))))
  }

  /** Graying the grayscale output again with the same colour model changes
      none of its pixels. */
  lemma {:induction false} GrayscaleTwiceIsOnce(src: Decoded)
    ensures MapGrid(Transformed(Grayscale, src).content.rows, GrayRule(src.hasAlpha)) == Transformed(Grayscale, src).content.rows
  {
    var rule := GrayRule(src.hasAlpha);
    forall p: bv32 ensures rule(rule(p)) == rule(p) {
      GrayIdempotent(p, src.hasAlpha);
    }
    MapGridIdempotent(src.content.rows, rule);
  }

  /** The drawing and the pixel loop: the image `Transformed` describes. */
  method Render(t: Transform, src: Decoded) returns (dest: Image)
    ensures dest == Transformed(t, src)
  {
    var destType := CopilotDestType(src.hasAlpha);
    match t {
      case Rotate =>
        var canvas := NewImage(src.height, src.width, destType).value;
        dest := Paint(canvas, QuarterTurn(src.height, 0, 0, 0, true), src);
      case Resize =>
        var canvas := NewImage(ResizeTarget, ResizeTarget, destType).value;
        dest := Paint(canvas, Scale(ResizeTarget, ResizeTarget, true), src);
      case Grayscale =>
        var canvas := NewImage(src.width, src.height, destType).value;
        var raster := new bv32[src.height, src.width];
        ghost var writes := MapPixels(src, raster, GrayRule(src.hasAlpha));
        dest := canvas.(content := Pixels(GridOf(raster)));
    }
  }

  /** Encoding and the PUT. The format and content type come from the key;
      a format without a writer uploads an empty object, and the handler
      still reports success. */
  function Upload(codec: Codec, t: Transform, key: string, image: Image, putFault: Option<StorageError>): (s: Step)
    ensures s.Done? ==> putFault.None? && s.outKey == OutputPrefix(t) + key
    ensures s.Done? ==> s.upload.contentType == Some(ContentTypeForFormat(FormatFromKey(key)))
    ensures s.Done? && s.upload.data != [] ==> codec.write(image, FormatFromKey(key)) == Encoded(s.upload.data)
    ensures codec.write(image, FormatFromKey(key)).NoWriter? && putFault.None? ==> s.Done? && s.upload.data == []
    ensures codec.write(image, FormatFromKey(key)).WriteFailed? ==> s == Fail("I/O error: " + codec.write(image, FormatFromKey(key)).message)
    ensures !codec.write(image, FormatFromKey(key)).WriteFailed? && putFault.Some? ==> s == Fail(StorageMessage(putFault.value))
  {
    var format := FormatFromKey(key);
    match EncodeIgnoringResult(codec, image, format)
    case Failure(m) => Fail("I/O error: " + m)
    case Success(bytes) =>
      match putFault
      case Some(e) => Fail(StorageMessage(e))
      case None => Done(OutputPrefix(t) + key, StoredObject(bytes, Some(ContentTypeForFormat(format))))
  }

  /** The work after the HEAD, from the GET on. */
  function Convert(codec: Codec, t: Transform, key: string, got: Result<seq<byte>, StorageError>,
                   putFault: Option<StorageError>): (s: Step)
    ensures got.Failure? ==> s == Fail(StorageMessage(got.error))
    ensures got.Success? && codec.read(got.value).NoReader? ==> s == Fail("Invalid image or unsupported format for key: " + key)
    ensures s.Done? ==> got.Success? && codec.read(got.value).Decoded?
  {
    match got
    case Failure(e) => Fail(StorageMessage(e))
    case Success(data) =>
      match codec.read(data)
      case NoReader => Fail("Invalid image or unsupported format for key: " + key)
      case ReadFailed(m) => Fail("I/O error: " + m)
      case Decoded(src) => Upload(codec, t, key, Transformed(t, src), putFault)
  }

  /** Everything in the try block, as a function of what the store holds at
      the source location and of whether the PUT fails. */
  function Pipeline(codec: Codec, t: Transform, key: string, source: Result<StoredObject, StorageError>,
                    putFault: Option<StorageError>): (s: Step)
    ensures source.Failure? ==> s == Fail(StorageMessage(source.error))
    ensures s.Done? ==> source.Success? && codec.read(source.value.data).Decoded? && putFault.None?
    ensures s.Done? ==> s.outKey == OutputPrefix(t) + key
    ensures s.Done? ==> s.upload.contentType == Some(ContentTypeForFormat(FormatFromKey(key)))
    ensures s.Done? && s.upload.data != [] ==>
      codec.write(Transformed(t, codec.read(source.value.data).image), FormatFromKey(key)) == Encoded(s.upload.data)
  {
    match source
    case Failure(e) => Fail(StorageMessage(e))
    case Success(obj) => Convert(codec, t, key, Success(obj.data), putFault)
  }

  /** The response: metrics plus `outputKey`, or a map holding only `error`. */
  function Respond(metrics: Response, s: Step): (r: Response)
    requires IsMetrics(metrics)
    ensures ExactlyOneOutcome(r)
    ensures s.Done? ==> r == WithOutputKey(metrics, s.outKey)
    ensures s.Fail? ==> r == ErrorOnly(s.message)
  {
    match s
    case Done(outKey, _) => WithOutputKey(metrics, outKey)
    case Fail(message) => ErrorOnly(message)
  }

  /** Reading the source: through a new temporary input file filled by the
      8192-byte copy loop and read back with `ImageIO.read(File)`, or
      straight from the S3 stream, which stays open for the `finally`. */
  method LoadSource(store: ObjectStore, host: Host, t: Transform, loc: Loc, useTmp: bool)
    returns (got: Result<seq<byte>, StorageError>, stream: Option<nat>, tempIn: Option<nat>)
    requires host.Valid()
    modifies store, host
    ensures got == DataOf(old(store.Lookup(loc)))
    ensures store.objects == old(store.objects) && store.faults == old(store.faults)
    ensures host.Valid() && host.openStreams == old(host.openStreams) + Handles(stream)
    ensures stream.Some? ==> !useTmp && stream.value !in old(host.openStreams)
    ensures tempIn.Some? <==> useTmp
    ensures Grows(old(host.files), host.files, Handles(tempIn))
    ensures !useTmp ==> host.created == old(host.created)
  {
    stream, tempIn := None, None;
    if useTmp {
      var f := host.CreateTempFile(TempPrefix(t) + "-input-", "-" + SanitizeFilename(loc.key));
      tempIn := Some(f);
      got := store.GetObject(loc);
      if got.Success? {
        CopyIntoFile(host, f, got.value);
        got := Success(host.files[f].data);
      }
    } else {
      got := store.GetObject(loc);
      if got.Success? {
        var h := host.OpenStream();
        stream := Some(h);
      }
    }
  }

  /** Encoding into a new temporary output file (`ImageIO.write(image,
      format, file)`, which leaves the empty file alone when no writer is
      found) or into a memory buffer, then the PUT. */
  method StoreResult(store: ObjectStore, host: Host, codec: Codec, t: Transform, loc: Loc, image: Image, useTmp: bool)
    returns (step: Step, tempOut: Option<nat>)
    requires host.Valid()
    modifies store, host
    ensures step == Upload(codec, t, loc.key, image, FaultAt(old(store.faults), OutputLoc(t, loc)))
    ensures store.faults == old(store.faults)
    ensures step.Done? ==> store.objects == old(store.objects)[OutputLoc(t, loc) := step.upload]
    ensures step.Fail? ==> store.objects == old(store.objects)
    ensures host.Valid() && host.openStreams == old(host.openStreams)
    ensures tempOut.Some? <==> useTmp
    ensures Grows(old(host.files), host.files, Handles(tempOut))
    ensures !useTmp ==> host.created == old(host.created)
  {
    tempOut := None;
    var format := FormatFromKey(loc.key);
    var contentType := ContentTypeForFormat(format);
    var out := OutputLoc(t, loc);
    var bytes: seq<byte>;
    if useTmp {
      var f := host.CreateTempFile(TempPrefix(t) + "-output-", "-" + SanitizeFilename(out.key));
      tempOut := Some(f);
      match codec.write(image, format) {
        case WriteFailed(m) =>
          return Fail("I/O error: " + m), tempOut;
        case NoWriter =>
        case Encoded(b) =>
          host.WriteFile(f, b);
      }
      bytes := host.files[f].data;
    } else {
      var buffer := EncodeIgnoringResult(codec, image, format);
      if buffer.Failure? {
        return Fail("I/O error: " + buffer.error), tempOut;
      }
      bytes := buffer.value;
    }
    var put := store.PutObject(out, bytes, Some(contentType));
    if put.Failure? {
      return Fail(StorageMessage(put.error)), tempOut;
    }
    step := Done(out.key, StoredObject(bytes, Some(contentType)));
  }

  /** The try block from the GET on. */
  method Continue(store: ObjectStore, host: Host, codec: Codec, t: Transform, loc: Loc, useTmp: bool)
    returns (step: Step, stream: Option<nat>, tempIn: Option<nat>, tempOut: Option<nat>)
    requires host.Valid()
    modifies store, host
    ensures step == Convert(codec, t, loc.key, DataOf(old(store.Lookup(loc))), FaultAt(old(store.faults), OutputLoc(t, loc)))
    ensures store.faults == old(store.faults)
    ensures step.Done? ==> store.objects == old(store.objects)[OutputLoc(t, loc) := step.upload]
    ensures step.Fail? ==> store.objects == old(store.objects)
    ensures host.Valid() && host.openStreams == old(host.openStreams) + Handles(stream)
    ensures stream.Some? ==> stream.value !in old(host.openStreams)
    ensures Grows(old(host.files), host.files, Handles(tempIn) + Handles(tempOut))
    ensures !useTmp ==> tempIn.None? && tempOut.None? && host.created == old(host.created)
  {
    tempOut := None;
    var got;
    got, stream, tempIn := LoadSource(store, host, t, loc, useTmp);
    ghost var loaded := host.files;
    if got.Failure? {
      return Fail(StorageMessage(got.error)), stream, tempIn, tempOut;
    }
    var decoded := codec.read(got.value);
    if decoded.NoReader? {
      return Fail("Invalid image or unsupported format for key: " + loc.key), stream, tempIn, tempOut;
    } else if decoded.ReadFailed? {
      return Fail("I/O error: " + decoded.message), stream, tempIn, tempOut;
    }
    var image := Render(t, decoded.image);
    step, tempOut := StoreResult(store, host, codec, t, loc, image, useTmp);
    assert Grows(loaded, host.files, Handles(tempOut));
  }

  /** The try block: HEAD, the spool decision, and the rest. */
  method Process(store: ObjectStore, host: Host, codec: Codec, t: Transform, loc: Loc, freeMem: nat)
    returns (step: Step, stream: Option<nat>, tempIn: Option<nat>, tempOut: Option<nat>)
    requires host.Valid() && store.SizesBounded()
    modifies store, host
    ensures step == Pipeline(codec, t, loc.key, old(store.Lookup(loc)), FaultAt(old(store.faults), OutputLoc(t, loc)))
    ensures store.faults == old(store.faults)
    ensures step.Done? ==> store.objects == old(store.objects)[OutputLoc(t, loc) := step.upload]
    ensures step.Fail? ==> store.objects == old(store.objects)
    ensures host.Valid() && host.openStreams == old(host.openStreams) + Handles(stream)
    ensures stream.Some? ==> stream.value !in old(host.openStreams)
    ensures Grows(old(host.files), host.files, Handles(tempIn) + Handles(tempOut))
  {
    var head := store.HeadObject(loc);
    if head.Failure? {
      return Fail(StorageMessage(head.error)), None, None, None;
    }
    var useTmp := UseTmp(head.value.contentLength, freeMem);
    step, stream, tempIn, tempOut := Continue(store, host, codec, t, loc, useTmp);
  }

  /** The `finally` block: close the S3 stream, delete both temporary files
      (`deleteIfExists`). */
  method Cleanup(host: Host, stream: Option<nat>, tempIn: Option<nat>, tempOut: Option<nat>)
    requires host.Valid()
    modifies host
    ensures host.Valid()
    ensures host.openStreams == old(host.openStreams) - Handles(stream)
    ensures host.files == old(host.files) - (Handles(tempIn) + Handles(tempOut))
  {
    if stream.Some? {
      host.CloseStream(stream.value);
    }
    if tempIn.Some? {
      host.DeleteFile(tempIn.value);
    }
    if tempOut.Some? {
      host.DeleteFile(tempOut.value);
    }
  }

  /** `handleRequest`. The metrics snapshot and the free memory are
      parameters. A null request escapes as an exception; a refused request
      gets a map holding only `error`; otherwise the try block runs and its
      outcome is reported, the `finally` block having released every stream
      and temporary file. */
  method HandleRequest(store: ObjectStore, host: Host, codec: Codec, t: Transform, input: Option<map<string, Value>>,
                       metrics: Response, freeMem: nat) returns (r: Invocation)
    requires host.Valid() && IsMetrics(metrics) && store.SizesBounded()
    modifies store, host
    ensures r.Returned? ==> ExactlyOneOutcome(r.response)
    ensures input.None? ==> r == Raised(NullInputException)
    ensures input.None? || ValidateRequest(input.value).Failure? ==>
      store.log == old(store.log) && store.objects == old(store.objects) && host.created == old(host.created)
    ensures input.Some? && ValidateRequest(input.value).Failure? ==> r == Returned(ErrorOnly(ValidateRequest(input.value).error))
    ensures input.Some? && ValidateRequest(input.value).Success? ==>
      var loc := ValidateRequest(input.value).value;
      var s := Pipeline(codec, t, loc.key, old(store.Lookup(loc)), FaultAt(old(store.faults), OutputLoc(t, loc)));
      && r == Returned(Respond(metrics, s))
      && (s.Done? ==> store.objects == old(store.objects)[OutputLoc(t, loc) := s.upload])
      && (s.Fail? ==> store.objects == old(store.objects))
    ensures store.faults == old(store.faults)
    ensures host.Valid() && host.files == old(host.files) && host.openStreams == old(host.openStreams)
  {
    if input.None? {
      return Raised(NullInputException);
    }
    var valid := ValidateRequest(input.value);
    if valid.Failure? {
      return Returned(ErrorOnly(valid.error));
    }
    var loc := valid.value;
    ghost var files := host.files;
    var step, stream, tempIn, tempOut := Process(store, host, codec, t, loc, freeMem);
    GrowsThenShrinks(files, host.files, Handles(tempIn) + Handles(tempOut));
    Cleanup(host, stream, tempIn, tempOut);
    r := Returned(Respond(metrics, step));
  }
}
