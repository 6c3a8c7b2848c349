/** The three ChatGPT handlers (rotate, greyscale, resize). They share one
    pipeline: validate the request map, HEAD the object, open it (straight
    from S3, or through a /tmp file when it is large), sniff the format,
    rewind or reopen, decode, transform, encode with a PNG fallback, PUT
    under a prefixed key, and answer with the metrics map plus `outputKey`
    or `error`. Every exception is caught and reported as
    "Exception: " + its message.

    The pipeline is stated twice: as the functions `Pipeline`, `Convert`
    and `Finish`, which say what the outcome is, and as the methods
    `HandleRequest`, `Process` and `Store`, which perform it on the object
    store and the host, and are proved to produce that outcome. */
module ChatGptHandlers {

  import opened Wrappers
  import opened Streams
  import opened Storage
  import opened HostEnv
  import opened Envelope
  import opened Spool
  import opened KeyNames
  import opened Images
  import opened ImageCodec
  import opened PixelLoop
  import opened Argb
  import opened Jobs

  /** Request validation: a null map, then a null `bucket` or `key`. Any
      other value is accepted and turned into text with `toString()`, the
      empty string included. */
  function ValidateRequest(input: Option<map<string, Value>>): (r: Result<Loc, string>)
    ensures input.None? ==> r == Failure("Input map is null")
    ensures input.Some? ==> (r.Success? <==> Field(input.value, "bucket").Some? && Field(input.value, "key").Some?)
    ensures input.Some? && r.Failure? ==> r.error == "Missing bucket or key"
    ensures r.Success? ==> r.value == Loc(Text(input.value["bucket"]), Text(input.value["key"]))
  {
    match input
    case None => Failure("Input map is null")
    case Some(m) =>
      match (Field(m, "bucket"), Field(m, "key"))
      case (Some(b), Some(k)) => Success(Loc(Text(b), Text(k)))
      case _ => Failure("Missing bucket or key")
  }

  /** Empty names pass validation. */
  lemma EmptyNamesAccepted()
    ensures ValidateRequest(Some(map["bucket" := Str(""), "key" := Str("")])) == Success(Loc("", ""))
  {
    var m := map["bucket" := Str(""), "key" := Str("")];
    assert Field(m, "bucket") == Some(Str(""));
    assert Field(m, "key") == Some(Str(""));
  }

  /** The key without trailing separators. */
  function TrimTrailingSlashes(s: string): (r: string)
    ensures r <= s
    ensures r == [] || r[|r| - 1] != '/'
    ensures forall i :: |r| <= i < |s| ==> s[i] == '/'
  {
    if s != [] && s[|s| - 1] == '/' then TrimTrailingSlashes(s[..|s| - 1]) else s
  }

  /** `new File(key).getName()`: the last path component, after trailing
      separators are dropped. */
  function BaseName(path: string): (name: string)
    ensures '/' !in name
    ensures |name| <= |path|
    ensures '/' !in path ==> name == path
  {
    var p := TrimTrailingSlashes(path);
    p[LastIndexOf(p, '/') + 1..]
  }

  /** The image each handler builds from the decoded source. Rotation draws
      the source on a canvas with width and height swapped, translated by
      the source height and turned a quarter; resizing draws it bilinearly
      onto 128 by 128; both keep the source type except TYPE_CUSTOM, which
      becomes TYPE_INT_ARGB. The greyscale image is TYPE_BYTE_GRAY, as
      large as the source, holding the ChatGPT grey of each source word. */
  function Transformed(t: Transform, src: Decoded): (im: Image)
    ensures im.WellFormed()
    ensures t == Rotate ==> im.width == src.height && im.height == src.width
    ensures t == Resize ==> im.width == ResizeTarget && im.height == ResizeTarget
    ensures t == Grayscale ==> im.width == src.width && im.height == src.height
    ensures t != Grayscale ==> im.imageType == ChatGptDestType(src.imageType) && im.content.Drawn? && im.content.source == src
    ensures t == Grayscale ==> im.imageType == TypeByteGray && im.content.Pixels?
    ensures t == Grayscale ==> forall y, x :: 0 <= y < src.height && 0 <= x < src.width ==>
      var p, q := src.content.rows[y][x], im.content.rows[y][x];
      IsGrey(q) && Alpha(q) == Alpha(p) && Red(q) as int == RoundedLuma(Red(p), Green(p), Blue(p))
  {
    ChatGptDestTypeAccepted(src);
    match t
    case Rotate =>
      Paint(NewImage(src.height, src.width, ChatGptDestType(src.imageType)).value,
            QuarterTurn(src.height, 0, 0, 0, false), src)
    case Resize =>
      Paint(NewImage(ResizeTarget, ResizeTarget, ChatGptDestType(src.imageType)).value,
            Scale(ResizeTarget, ResizeTarget, true), src)
    case Grayscale =>
      NewImage(src.width, src.height, TypeByteGray).value.(content := Pixels(MapGrid(src.content.rows, ChatGptGray)))
  }

  /** Greyscaling the greyscale output again changes none of its pixels. */
  lemma {:induction false} GrayscaleTwiceIsOnce(src: Decoded)
    ensures MapGrid(Transformed(Grayscale, src).content.rows, ChatGptGray) == Transformed(Grayscale, src).content.rows
  {
    forall p: bv32 ensures ChatGptGray(ChatGptGray(p)) == ChatGptGray(p) {
      GrayIdempotent(p, true);
    }
    MapGridIdempotent(src.content.rows, ChatGptGray);
  }

  /** The drawing and the pixel loop: the image `Transformed` describes. */
  method Render(t: Transform, src: Decoded) returns (dest: Image)
    ensures dest == Transformed(t, src)
  {
    ChatGptDestTypeAccepted(src);
    match t {
      case Rotate =>
        var canvas := NewImage(src.height, src.width, ChatGptDestType(src.imageType)).value;
        dest := Paint(canvas, QuarterTurn(src.height, 0, 0, 0, false), src);
      case Resize =>
        var canvas := NewImage(ResizeTarget, ResizeTarget, ChatGptDestType(src.imageType)).value;
        dest := Paint(canvas, Scale(ResizeTarget, ResizeTarget, true), src);
      case Grayscale =>
        var canvas := NewImage(src.width, src.height, TypeByteGray).value;
        var raster := new bv32[src.height, src.width];
        ghost var writes := MapPixels(src, raster, ChatGptGray);
        dest := canvas.(content := Pixels(GridOf(raster)));
    }
  }

  /** The inner try after the format is known. `reread` is what the
      rewound or reopened stream yields, `sourceType` the content type the
      HEAD reported, `putFault` the error the PUT meets, if any. */
  function Finish(codec: Codec, t: Transform, key: string, reread: Result<seq<byte>, StorageError>,
                  formatName: string, sourceType: Option<string>, putFault: Option<StorageError>): (s: Step)
    ensures reread.Failure? ==> s == Fail("Exception: " + reread.error.message)
    ensures s.Done? ==> reread.Success? && codec.read(reread.value).Decoded? && putFault.None?
    ensures s.Done? ==> s.outKey == OutputPrefix(t) + key
    ensures s.Done? ==> s.upload.contentType.Some?
    ensures s.Done? && sourceType.Some? ==> s.upload.contentType == sourceType
    ensures s.Done? && sourceType.None? ==>
      s.upload.contentType == Some("image/" + formatName) || s.upload.contentType == Some("image/png")
    ensures s.Done? && s.upload.data != [] ==>
      exists f :: (f == formatName || f == "png") && codec.write(Transformed(t, codec.read(reread.value).image), f) == Encoded(s.upload.data)
  {
    match reread
    case Failure(e) => Fail("Exception: " + e.message)
    case Success(data) =>
      match codec.read(data)
      case NoReader => Fail("Failed to decode image, invalid image data for key: " + key)
      case ReadFailed(m) => Fail("Exception: " + m)
      case Decoded(src) =>
        match EncodeWithFallback(codec, Transformed(t, src), formatName)
        case Failure(m) => Fail("Exception: " + m)
        case Success(enc) =>
          assert enc.format == formatName || enc.format == "png";
          assert sourceType.None? ==> ChatGptContentType(sourceType, enc.format) == "image/" + enc.format;
          assert "image/" + "png" == "image/png";
          match putFault
          case Some(e) => Fail("Exception: " + e.message)
          case None => Done(OutputPrefix(t) + key, StoredObject(enc.bytes, Some(ChatGptContentType(sourceType, enc.format))))
  }

  /** The inner try from the GET on. */
  function Convert(codec: Codec, t: Transform, key: string, got: Result<seq<byte>, StorageError>,
                   sourceType: Option<string>, putFault: Option<StorageError>): (s: Step)
    ensures got.Failure? ==> s == Fail("Exception: " + got.error.message)
    ensures got.Success? && DetectFormatName(codec, got.value).None? ==>
      s == Fail("Unsupported or unknown image format for key: " + key)
    ensures s.Done? ==> got.Success? && DetectFormatName(codec, got.value).Some? && codec.read(got.value).Decoded?
  {
    match got
    case Failure(e) => Fail("Exception: " + e.message)
    case Success(data) =>
      match DetectFormatName(codec, data)
      case None => Fail("Unsupported or unknown image format for key: " + key)
      case Some(formatName) => Finish(codec, t, key, got, formatName, sourceType, putFault)
  }

  /** Everything after validation, as a function of what the store holds at
      the source location and of whether the PUT fails. */
  function Pipeline(codec: Codec, t: Transform, key: string, source: Result<StoredObject, StorageError>,
                    putFault: Option<StorageError>): (s: Step)
    ensures source.Failure? ==> s == Fail("Exception: " + source.error.message)
    ensures s.Done? ==> source.Success? && putFault.None? && s.outKey == OutputPrefix(t) + key
    ensures s.Done? ==> DetectFormatName(codec, source.value.data).Some? && codec.read(source.value.data).Decoded?
    ensures s.Done? ==>
      || s.upload.contentType == Some(ChatGptContentType(source.value.contentType, "png"))
      || s.upload.contentType == Some(ChatGptContentType(source.value.contentType, DetectFormatName(codec, source.value.data).value))
  {
    match source
    case Failure(e) => Fail("Exception: " + e.message)
    case Success(obj) => Convert(codec, t, key, Success(obj.data), obj.contentType, putFault)
  }

  /** The response map: metrics plus `outputKey`, or metrics plus `error`. */
  function Respond(metrics: Response, s: Step): (r: Response)
    requires IsMetrics(metrics)
    ensures ExactlyOneOutcome(r) && CarriesMetrics(r, metrics)
    ensures s.Done? <==> OutputKey in r
    ensures s.Done? ==> r == WithOutputKey(metrics, s.outKey)
    ensures s.Fail? ==> r == WithError(metrics, s.message)
  {
    match s
    case Done(outKey, _) => WithOutputKey(metrics, outKey)
    case Fail(message) => WithError(metrics, message)
  }

  /** Decode, transform, encode and PUT; `reread` is the outcome of
      rewinding or reopening the source. */
  method Store(store: ObjectStore, codec: Codec, t: Transform, loc: Loc, reread: Result<seq<byte>, StorageError>,
               formatName: string, sourceType: Option<string>) returns (step: Step)
    modifies store
    ensures step == Finish(codec, t, loc.key, reread, formatName, sourceType, FaultAt(old(store.faults), OutputLoc(t, loc)))
    ensures store.faults == old(store.faults)
    ensures step.Done? ==> store.objects == old(store.objects)[OutputLoc(t, loc) := step.upload]
    ensures step.Fail? ==> store.objects == old(store.objects)
  {
    if reread.Failure? {
      return Fail("Exception: " + reread.error.message);
    }
    var decoded := codec.read(reread.value);
    if decoded.NoReader? {
      return Fail("Failed to decode image, invalid image data for key: " + loc.key);
    } else if decoded.ReadFailed? {
      return Fail("Exception: " + decoded.message);
    }
    var dest := Render(t, decoded.image);
    var enc := EncodeWithFallback(codec, dest, formatName);
    if enc.Failure? {
      return Fail("Exception: " + enc.error);
    }
    var upload := StoredObject(enc.value.bytes, Some(ChatGptContentType(sourceType, enc.value.format)));
    var put := store.PutObject(OutputLoc(t, loc), upload.data, upload.contentType);
    if put.Failure? {
      return Fail("Exception: " + put.error.message);
    }
    step := Done(OutputPrefix(t) + loc.key, upload);
  }

  /** The /tmp branch: a new temporary file named after the key, filled
      from the S3 stream by the 8192-byte copy loop (both streams closed by
      try-with-resources), then opened for reading. */
  method SpoolToFile(store: ObjectStore, host: Host, loc: Loc)
    returns (got: Result<seq<byte>, StorageError>, stream: Option<nat>, temp: nat)
    requires host.Valid()
    modifies store, host
    ensures got == DataOf(old(store.Lookup(loc)))
    ensures store.objects == old(store.objects) && store.faults == old(store.faults)
    ensures stream.Some? <==> got.Success?
    ensures host.Valid() && temp !in old(host.files) && temp in host.files
    ensures host.files == old(host.files)[temp := host.files[temp]]
    ensures host.files[temp].name == "s3img-" + ("-" + BaseName(loc.key))
    ensures got.Success? ==> host.files[temp].data == got.value
    ensures old(host.openStreams) <= host.openStreams == old(host.openStreams) + Handles(stream)
    ensures stream.Some? ==> stream.value !in old(host.openStreams)
  {
    stream := None;
    temp := host.CreateTempFile("s3img-", "-" + BaseName(loc.key));
    got := store.GetObject(loc);
    if got.Failure? {
      return;
    }
    CopyIntoFile(host, temp, got.value);
    var h := host.OpenStream();
    stream := Some(h);
  }

  /** Opening the source: straight from S3, or through /tmp when `spool`.
      `got` is what the opened stream yields; `stream` is open exactly when
      that succeeded. */
  method OpenSource(store: ObjectStore, host: Host, loc: Loc, spool: bool)
    returns (got: Result<seq<byte>, StorageError>, stream: Option<nat>, temp: Option<nat>)
    requires host.Valid()
    modifies store, host
    ensures got == DataOf(old(store.Lookup(loc)))
    ensures store.objects == old(store.objects) && store.faults == old(store.faults)
    ensures stream.Some? <==> got.Success?
    ensures temp.Some? <==> spool
    ensures host.Valid()
    ensures old(host.openStreams) <= host.openStreams == old(host.openStreams) + Handles(stream)
    ensures stream.Some? ==> stream.value !in old(host.openStreams)
    ensures temp.None? ==> host.files == old(host.files) && host.created == old(host.created)
    ensures temp.Some? ==>
      && temp.value !in old(host.files) && temp.value in host.files
      && host.files == old(host.files)[temp.value := host.files[temp.value]]
    ensures temp.Some? && got.Success? ==> host.files[temp.value].data == got.value
  {
    if spool {
      var f;
      got, stream, f := SpoolToFile(store, host, loc);
      temp := Some(f);
    } else {
      stream, temp := None, None;
      got := store.GetObject(loc);
      if got.Success? {
        var h := host.OpenStream();
        stream := Some(h);
      }
    }
  }

  /** After format detection: `reset()` when the stream supports it, else
      close it and reopen the temporary file, or GET the object again. A
      failed GET leaves the closed stream in place. */
  method Rewind(store: ObjectStore, host: Host, loc: Loc, got: Result<seq<byte>, StorageError>, stream: nat,
                temp: Option<nat>, markSupported: bool)
    returns (reread: Result<seq<byte>, StorageError>, next: nat)
    requires host.Valid() && got.Success? && stream in host.openStreams
    requires temp.Some? ==> temp.value in host.files && host.files[temp.value].data == got.value
    modifies store, host
    ensures reread == (if temp.None? && !markSupported then DataOf(old(store.Lookup(loc))) else got)
    ensures store.objects == old(store.objects) && store.faults == old(store.faults)
    ensures host.Valid() && host.files == old(host.files) && host.created == old(host.created)
    ensures next == stream || next !in old(host.openStreams)
    ensures old(host.openStreams) - {stream} <= host.openStreams <= (old(host.openStreams) - {stream}) + {next}
  {
    reread, next := got, stream;
    if temp.Some? {
      host.CloseStream(stream);
      next := host.OpenStream();
      reread := Success(host.files[temp.value].data);
    } else if !markSupported {
      host.CloseStream(stream);
      reread := store.GetObject(loc);
      if reread.Success? {
        next := host.OpenStream();
      }
    }
  }

  /** The inner try block, up to its `finally`. It returns the step and the
      resources the `finally` must release: the stream last assigned to
      `imageInputStream` and the temporary file. `contentLength` is the
      length the spool decision sees; `markSupported` says whether the S3
      stream can be rewound (a file stream cannot). */
  method Process(store: ObjectStore, host: Host, codec: Codec, t: Transform, loc: Loc, sourceType: Option<string>,
                 contentLength: long, freeHeap: nat, markSupported: bool)
    returns (step: Step, stream: Option<nat>, temp: Option<nat>)
    requires host.Valid()
    modifies store, host
    ensures step == Convert(codec, t, loc.key, DataOf(old(store.Lookup(loc))), sourceType, FaultAt(old(store.faults), OutputLoc(t, loc)))
    ensures store.faults == old(store.faults)
    ensures step.Done? ==> store.objects == old(store.objects)[OutputLoc(t, loc) := step.upload]
    ensures step.Fail? ==> store.objects == old(store.objects)
    ensures host.Valid()
    ensures old(host.openStreams) <= host.openStreams <= old(host.openStreams) + Handles(stream)
    ensures stream.Some? ==> stream.value !in old(host.openStreams)
    ensures temp.None? ==> host.files == old(host.files)
    ensures temp.Some? ==>
      && temp.value !in old(host.files) && temp.value in host.files
      && host.files == old(host.files)[temp.value := host.files[temp.value]]
    ensures !ShouldUseTmp(contentLength, freeHeap) ==> temp.None? && host.created == old(host.created)
  {
    var got;
    got, stream, temp := OpenSource(store, host, loc, ShouldUseTmp(contentLength, freeHeap));
    if got.Failure? {
      return Fail("Exception: " + got.error.message), stream, temp;
    }
    var formatName := DetectFormatName(codec, got.value);
    if formatName.None? {
      return Fail("Unsupported or unknown image format for key: " + loc.key), stream, temp;
    }
    var reread, next := Rewind(store, host, loc, got, stream.value, temp, markSupported);
    stream := Some(next);
    step := Store(store, codec, t, loc, reread, formatName.value, sourceType);
  }

  /** The `finally` block: close the stream, delete the temporary file. */
  method Cleanup(host: Host, stream: Option<nat>, temp: Option<nat>)
    requires host.Valid()
    modifies host
    ensures host.Valid()
    ensures host.openStreams == old(host.openStreams) - Handles(stream)
    ensures host.files == old(host.files) - Handles(temp)
    ensures host.created == old(host.created)
  {
    if stream.Some? {
      host.CloseStream(stream.value);
    }
    if temp.Some? {
      host.DeleteFile(temp.value);
    }
  }

  /** `handleRequest`. The metrics snapshot is a parameter, as is the free
      heap and whether the S3 stream supports mark/reset. The content
      length the spool decision sees is the constant -1, so no temporary
      file is ever created. */
  method HandleRequest(store: ObjectStore, host: Host, codec: Codec, t: Transform, input: Option<map<string, Value>>,
                       metrics: Response, freeHeap: nat, markSupported: bool) returns (r: Response)
    requires host.Valid() && IsMetrics(metrics)
    modifies store, host
    ensures ExactlyOneOutcome(r) && CarriesMetrics(r, metrics)
    ensures ValidateRequest(input).Failure? ==>
      r == WithError(metrics, ValidateRequest(input).error) && store.log == old(store.log) && store.objects == old(store.objects)
    ensures ValidateRequest(input).Success? ==>
      var loc := ValidateRequest(input).value;
      var s := Pipeline(codec, t, loc.key, old(store.Lookup(loc)), FaultAt(old(store.faults), OutputLoc(t, loc)));
      && r == Respond(metrics, s)
      && (s.Done? ==> store.objects == old(store.objects)[OutputLoc(t, loc) := s.upload])
      && (s.Fail? ==> store.objects == old(store.objects))
    ensures store.faults == old(store.faults)
    ensures host.Valid() && host.files == old(host.files) && host.openStreams == old(host.openStreams)
    ensures host.created == old(host.created)
  {
    var valid := ValidateRequest(input);
    if valid.Failure? {
      return WithError(metrics, valid.error);
    }
    var loc := valid.value;
    var head := store.HeadObject(loc);
    if head.Failure? {
      return WithError(metrics, "Exception: " + head.error.message);
    }
    ChatGptNeverSpools(freeHeap);
    var step, stream, temp := Process(store, host, codec, t, loc, head.value.contentType, ChatGptContentLength, freeHeap, markSupported);
    Cleanup(host, stream, temp);
    r := Respond(metrics, step);
  }
}
