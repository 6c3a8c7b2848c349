/** The three Gemini handlers (rotate, grayscale, resize). They cast the
    `bucket` and `key` entries to strings before their try block, so a
    null map or a non-string name escapes as an exception. Inside the try
    they GET the object, decode it, build an image of the source's own
    type, encode it in the format named by the key's extension (ignoring
    whether a writer exists), PUT it without a content type and answer
    with `outputKey` or `error` merged with the metrics map. The stream
    the GET opens is never closed. The rotate handler builds that answer
    and then returns the map its inspector produces instead.

    As in the other variants, the functions `Admit` and `Pipeline` say
    what the outcome is and the methods perform it. */
module GeminiHandlers {

  import opened Wrappers
  import opened Streams
  import opened Storage
  import opened HostEnv
  import opened Envelope
  import opened KeyNames
  import opened Images
  import opened ImageCodec
  import opened PixelLoop
  import opened Argb
  import opened Jobs
  import ChatGptHandlers

  const NullInputException: string := "java.lang.NullPointerException"
  const ClassCastException: string := "java.lang.ClassCastException"

  /** The message of the IllegalArgumentException for a null name. */
  function MissingNamesMessage(t: Transform): (m: string)
    ensures 21 <= |m| && m[..21] == "Missing bucket or key"
    ensures t == Rotate <==> m == "Missing bucket or key in input JSON"
    ensures t != Rotate <==> m == "Missing bucket or key"
  {
    if t == Rotate then "Missing bucket or key in input JSON" else "Missing bucket or key"
  }

  /** The message of the IOException for an image no reader accepts. */
  function NoReaderMessage(t: Transform): (m: string)
    ensures t == Rotate <==> m == "Failed to read image. Format might be unsupported."
    ensures t != Rotate <==> m == "Invalid image format"
  {
    if t == Rotate then "Failed to read image. Format might be unsupported." else "Invalid image format"
  }

  /** A value `(String)` cannot cast. */
  predicate NonString(input: map<string, Value>, name: string)
  {
    name in input && input[name].Other?
  }

  /** How the request is received: an exception escaping before the try
      block, a rejection inside it, or the location to work on. */
  datatype Admission = Raises(exception: string) | Rejects(message: string) | Admits(loc: Loc)

  /** `(String) input.get("bucket")`, `(String) input.get("key")`, then the
      null check inside the try. Empty names are admitted. */
  function Admit(t: Transform, input: Option<map<string, Value>>): (a: Admission)
    ensures input.None? ==> a == Raises(NullInputException)
    ensures input.Some? ==> (a.Raises? <==> NonString(input.value, "bucket") || NonString(input.value, "key"))
    ensures input.Some? && a.Raises? ==> a.exception == ClassCastException
    ensures a.Rejects? ==>
      && a.message == MissingNamesMessage(t)
      && (Field(input.value, "bucket").None? || Field(input.value, "key").None?)
    ensures a.Admits? ==>
      && input.Some? && "bucket" in input.value && "key" in input.value
      && input.value["bucket"] == Str(a.loc.bucket) && input.value["key"] == Str(a.loc.key)
  {
    match input
    case None => Raises(NullInputException)
    case Some(m) =>
      if NonString(m, "bucket") || NonString(m, "key") then Raises(ClassCastException)
      else
        match (Field(m, "bucket"), Field(m, "key"))
        case (Some(Str(b)), Some(Str(k))) => Admits(Loc(b, k))
        case _ => Rejects(MissingNamesMessage(t))
  }

  /** A request Gemini admits is one ChatGPT accepts, at the same place. */
  lemma {:induction false} AdmittedByChatGptToo(t: Transform, input: Option<map<string, Value>>)
    requires Admit(t, input).Admits?
    ensures ChatGptHandlers.ValidateRequest(input) == Success(Admit(t, input).loc)
  {
    var m := input.value;
    assert Field(m, "bucket").Some? && Field(m, "key").Some?;
  }

  /** The converse fails: a numeric name, which ChatGPT turns into text,
      makes Gemini throw before its try block. */
  lemma NumericNameRaises(t: Transform)
    ensures Admit(t, Some(map["bucket" := Other("7"), "key" := Str("a.png")])) == Raises(ClassCastException)
    ensures ChatGptHandlers.ValidateRequest(Some(map["bucket" := Other("7"), "key" := Str("a.png")])) == Success(Loc("7", "a.png"))
  {
    var m := map["bucket" := Other("7"), "key" := Str("a.png")];
    assert NonString(m, "bucket");
    assert Field(m, "bucket") == Some(Other("7")) && Field(m, "key") == Some(Str("a.png"));
  }

  /** The rotate transform: translate by `(height - width) / 2` on both
      axes (integer division), then rotate 90 degrees about
      (height / 2.0, width / 2.0); nearest-neighbour drawing. The shift is
      the same on both axes and is half the difference of the sides, exactly
      when that difference is even and otherwise half a pixel nearer zero. */
  function Turn(src: Decoded): (op: DrawOp)
    ensures op.QuarterTurn? && !op.bilinear && op.tx == op.ty
    ensures op.px2 == src.height && op.py2 == src.width
    ensures (src.height - src.width) % 2 == 0 ==> 2 * op.tx == src.height - src.width
    ensures (src.height - src.width) % 2 != 0 ==> 2 * op.tx - (src.height - src.width) == (if src.height > src.width then -1 else 1)
  {
    var d := JavaDiv(src.height - src.width, 2);
    QuarterTurn(d, d, src.height, src.width, false)
  }

  /** The Gemini rotation fills its height-by-width canvas exactly when the
      two sides differ by an even number. Otherwise the truncated shift
      leaves the picture half a pixel off on both axes. */
  lemma {:induction false} RotationCoversCanvasIff(src: Decoded)
    ensures CoversCanvas(Turn(src), src.width, src.height, src.height, src.width) <==> (src.height - src.width) % 2 == 0
    ensures (src.height - src.width) % 2 != 0 ==>
      var p := TurnPoint(Turn(src), 0, 0);
      (p.0 - 2 * src.height == 1 || p.0 - 2 * src.height == -1) && (p.1 == 1 || p.1 == -1)
  {
    var w, h := src.width, src.height;
    var d := JavaDiv(h - w, 2);
    if (h - w) % 2 == 0 {
      assert 2 * d == h - w;
    } else {
      assert 2 * d == h - w - 1 || 2 * d == h - w + 1;
      assert TurnPoint(Turn(src), 0, 0).0 == h + w + 2 * d;
      assert !IsCanvasCorner(TurnPoint(Turn(src), 0, 0), h, w);
    }
  }

  /** The size of the image each handler draws into. */
  function CanvasWidth(t: Transform, src: Decoded): (w: int)
    ensures w >= 1
  {
    match t
    case Rotate => src.height
    case Grayscale => src.width
    case Resize => ResizeTarget
  }

  function CanvasHeight(t: Transform, src: Decoded): (h: int)
    ensures h >= 1
  {
    match t
    case Rotate => src.width
    case Grayscale => src.height
    case Resize => ResizeTarget
  }

  /** `new BufferedImage(w, h, original.getType())` and what is drawn on
      it: the rotation, the bilinear scaling to 128 by 128, or the
      Gemini grey of every source word. A TYPE_CUSTOM source fails. */
  function Transformed(t: Transform, src: Decoded): (r: Result<Image, string>)
    ensures r.Failure? <==> src.imageType == TypeCustom
    ensures r.Failure? ==> r.error == "Unknown image type 0"
    ensures r.Success? ==> r.value.WellFormed() && r.value.imageType == src.imageType
    ensures r.Success? && t == Rotate ==>
      r.value.width == src.height && r.value.height == src.width && r.value.content == Drawn(Turn(src), src)
    ensures r.Success? && t == Resize ==>
      && r.value.width == ResizeTarget && r.value.height == ResizeTarget
      && r.value.content == Drawn(Scale(ResizeTarget, ResizeTarget, true), src)
    ensures r.Success? && t == Grayscale ==>
      && r.value.width == src.width && r.value.height == src.height && r.value.content.Pixels?
      && forall y, x :: 0 <= y < src.height && 0 <= x < src.width ==>
        var p, q := src.content.rows[y][x], r.value.content.rows[y][x];
        IsGrey(q) && Alpha(q) == Alpha(p) && Red(q) as int == TruncatedLuma(Red(p), Green(p), Blue(p))
  {
    var canvas := NewImage(CanvasWidth(t, src), CanvasHeight(t, src), src.imageType);
    if canvas.Failure? then Failure(canvas.error)
    else
      match t
      case Rotate => Success(Paint(canvas.value, Turn(src), src))
      case Resize => Success(Paint(canvas.value, Scale(ResizeTarget, ResizeTarget, true), src))
      case Grayscale => Success(canvas.value.(content := Pixels(MapGrid(src.content.rows, GeminiGray))))
  }

  /** Greyscaling the grayscale output again changes none of its pixels. */
  lemma {:induction false} GrayscaleTwiceIsOnce(src: Decoded)
    requires Transformed(Grayscale, src).Success?
    ensures MapGrid(Transformed(Grayscale, src).value.content.rows, GeminiGray) == Transformed(Grayscale, src).value.content.rows
  {
    forall p: bv32 ensures GeminiGray(GeminiGray(p)) == GeminiGray(p) {
      GrayIdempotent(p, true);
    }
    MapGridIdempotent(src.content.rows, GeminiGray);
  }

  /** The canvas, the drawing and the nested pixel loop. */
  method Render(t: Transform, src: Decoded) returns (r: Result<Image, string>)
    ensures r == Transformed(t, src)
  {
    var canvas := NewImage(CanvasWidth(t, src), CanvasHeight(t, src), src.imageType);
    if canvas.Failure? {
      return Failure(canvas.error);
    }
    match t {
      case Rotate =>
        r := Success(Paint(canvas.value, Turn(src), src));
      case Resize =>
        r := Success(Paint(canvas.value, Scale(ResizeTarget, ResizeTarget, true), src));
      case Grayscale =>
        var raster := new bv32[src.height, src.width];
        ghost var writes := MapPixels(src, raster, GeminiGray);
        r := Success(canvas.value.(content := Pixels(GridOf(raster))));
    }
  }

  /** Encoding in the key's extension format and the PUT, which carries no
      content type. A format without a writer uploads an empty object. */
  function Upload(codec: Codec, t: Transform, key: string, image: Image, putFault: Option<StorageError>): (s: Step)
    ensures codec.write(image, ExtensionFormat(key)).WriteFailed? ==> s == Fail(codec.write(image, ExtensionFormat(key)).message)
    ensures s.Done? <==> !codec.write(image, ExtensionFormat(key)).WriteFailed? && putFault.None?
    ensures !codec.write(image, ExtensionFormat(key)).WriteFailed? && putFault.Some? ==> s == Fail(putFault.value.message)
    ensures s.Done? ==> s.outKey == OutputPrefix(t) + key && s.upload.contentType.None?
    ensures s.Done? && s.upload.data != [] ==> codec.write(image, ExtensionFormat(key)) == Encoded(s.upload.data)
    ensures s.Done? && codec.write(image, ExtensionFormat(key)).NoWriter? ==> s.upload.data == []
  {
    match EncodeIgnoringResult(codec, image, ExtensionFormat(key))
    case Failure(m) => Fail(m)
    case Success(bytes) =>
      match putFault
      case Some(e) => Fail(e.message)
      case None => Done(OutputPrefix(t) + key, StoredObject(bytes, None))
  }

  /** The try block after the null check, as a function of what the GET
      yields and of whether the PUT fails. Every caught exception is
      reported by its bare message. */
  function Pipeline(codec: Codec, t: Transform, key: string, got: Result<seq<byte>, StorageError>,
                    putFault: Option<StorageError>): (s: Step)
    ensures got.Failure? ==> s == Fail(got.error.message)
    ensures got.Success? && codec.read(got.value).NoReader? ==> s == Fail(NoReaderMessage(t))
    ensures got.Success? && codec.read(got.value).ReadFailed? ==> s == Fail(codec.read(got.value).message)
    ensures got.Success? && codec.read(got.value).Decoded? && codec.read(got.value).image.imageType == TypeCustom ==>
      s == Fail("Unknown image type 0")
    ensures s.Done? ==>
      && got.Success? && codec.read(got.value).Decoded? && Transformed(t, codec.read(got.value).image).Success?
      && s == Upload(codec, t, key, Transformed(t, codec.read(got.value).image).value, putFault)
  {
    match got
    case Failure(e) => Fail(e.message)
    case Success(data) =>
      match codec.read(data)
      case NoReader => Fail(NoReaderMessage(t))
      case ReadFailed(m) => Fail(m)
      case Decoded(src) =>
        match Transformed(t, src)
        case Failure(m) => Fail(m)
        case Success(image) => Upload(codec, t, key, image, putFault)
  }

  /** The map the try block leaves in `response`. */
  function Local(s: Step): (r: Response)
    ensures r.Keys == if s.Done? then {OutputKey} else {ErrorKey}
    ensures s.Done? ==> r[OutputKey] == Str(s.outKey)
    ensures s.Fail? ==> r[ErrorKey] == Str(s.message)
  {
    match s
    case Done(outKey, _) => map[OutputKey := Str(outKey)]
    case Fail(message) => map[ErrorKey := Str(message)]
  }

  /** `response.putAll(metricsMap)` after the try: the metrics entries
      override, but none of them is an envelope key, so the answer is the
      metrics plus exactly one outcome. */
  function Respond(metrics: Response, s: Step): (r: Response)
    requires IsMetrics(metrics)
    ensures ExactlyOneOutcome(r) && CarriesMetrics(r, metrics)
    ensures s.Done? ==> r == WithOutputKey(metrics, s.outKey)
    ensures s.Fail? ==> r == WithError(metrics, s.message)
  {
    match s
    case Done(outKey, _) =>
      var r := Local(s) + metrics;
      assert r == WithOutputKey(metrics, outKey);
      r
    case Fail(message) =>
      var r := Local(s) + metrics;
      assert r == WithError(metrics, message);
      r
  }

  /** `response.put("outputKey", ...)` in the try or `response.put("error",
      ...)` in the catch, then `response.putAll(metricsMap)`. */
  method Answer(metrics: Response, s: Step) returns (response: Response)
    requires IsMetrics(metrics)
    ensures response == Respond(metrics, s)
  {
    response := map[];
    if s.Done? {
      response := response[OutputKey := Str(s.outKey)];
    } else {
      response := response[ErrorKey := Str(s.message)];
    }
    response := response + metrics;
  }

  /** From the GET to the PUT. The stream the GET opens is never closed:
      it stays open after the method, whatever happens next. */
  method Process(store: ObjectStore, host: Host, codec: Codec, t: Transform, loc: Loc)
    returns (step: Step, leaked: Option<nat>)
    requires host.Valid()
    modifies store, host
    ensures step == Pipeline(codec, t, loc.key, DataOf(old(store.Lookup(loc))), FaultAt(old(store.faults), OutputLoc(t, loc)))
    ensures store.faults == old(store.faults)
    ensures step.Done? ==> store.objects == old(store.objects)[OutputLoc(t, loc) := step.upload]
    ensures step.Fail? ==> store.objects == old(store.objects)
    ensures host.Valid() && host.files == old(host.files) && host.created == old(host.created)
    ensures leaked.Some? <==> old(store.Lookup(loc)).Success?
    ensures host.openStreams == old(host.openStreams) + Handles(leaked)
    ensures leaked.Some? ==> leaked.value !in old(host.openStreams)
  {
    leaked := None;
    var got := store.GetObject(loc);
    if got.Failure? {
      return Fail(got.error.message), leaked;
    }
    var h := host.OpenStream();
    leaked := Some(h);
    var decoded := codec.read(got.value);
    if decoded.NoReader? {
      return Fail(NoReaderMessage(t)), leaked;
    } else if decoded.ReadFailed? {
      return Fail(decoded.message), leaked;
    }
    var dest := Render(t, decoded.image);
    if dest.Failure? {
      return Fail(dest.error), leaked;
    }
    var bytes := EncodeIgnoringResult(codec, dest.value, ExtensionFormat(loc.key));
    if bytes.Failure? {
      return Fail(bytes.error), leaked;
    }
    var put := store.PutObject(OutputLoc(t, loc), bytes.value, None);
    if put.Failure? {
      return Fail(put.error.message), leaked;
    }
    step := Done(OutputPrefix(t) + loc.key, StoredObject(bytes.value, None));
  }

  /** `handleRequest` of the grayscale and resize handlers, and the part
      of the rotate handler that builds `response`. The metrics snapshot is
      a parameter. A GET that succeeds leaves exactly one stream open. */
  method HandleRequest(store: ObjectStore, host: Host, codec: Codec, t: Transform, input: Option<map<string, Value>>,
                       metrics: Response) returns (r: Invocation)
    requires host.Valid() && IsMetrics(metrics)
    modifies store, host
    ensures r.Returned? ==> ExactlyOneOutcome(r.response) && CarriesMetrics(r.response, metrics)
    ensures Admit(t, input).Raises? ==> r == Raised(Admit(t, input).exception)
    ensures Admit(t, input).Rejects? ==> r == Returned(WithError(metrics, Admit(t, input).message))
    ensures !Admit(t, input).Admits? ==> store.log == old(store.log) && store.objects == old(store.objects)
    ensures Admit(t, input).Admits? ==>
      var loc := Admit(t, input).loc;
      var s := Pipeline(codec, t, loc.key, DataOf(old(store.Lookup(loc))), FaultAt(old(store.faults), OutputLoc(t, loc)));
      && r == Returned(Respond(metrics, s))
      && (s.Done? ==> store.objects == old(store.objects)[OutputLoc(t, loc) := s.upload])
      && (s.Fail? ==> store.objects == old(store.objects))
    ensures store.faults == old(store.faults)
    ensures host.Valid() && host.files == old(host.files) && host.created == old(host.created)
    ensures old(host.openStreams) <= host.openStreams
    ensures |host.openStreams - old(host.openStreams)| ==
      if Admit(t, input).Admits? && old(store.Lookup(Admit(t, input).loc)).Success? then 1 else 0
  {
    var admission := Admit(t, input);
    if admission.Raises? {
      return Raised(admission.exception);
    } else if admission.Rejects? {
      var response := Answer(metrics, Fail(admission.message));
      return Returned(response);
    }
    var step, leaked := Process(store, host, codec, t, admission.loc);
    assert host.openStreams - old(host.openStreams) == Handles(leaked);
    var response := Answer(metrics, step);
    r := Returned(response);
  }

  /** `handleRequest` of the rotate handler: the same work, but what it
      returns is `finished`, the inspector's map (which holds neither
      `outputKey` nor `error`), and the response it built
      (`built`) is dropped. Only an exception before the try shows. */
  method HandleRotateRequest(store: ObjectStore, host: Host, codec: Codec, input: Option<map<string, Value>>,
                             metrics: Response, finished: Response) returns (r: Invocation, ghost built: Invocation)
    requires host.Valid() && IsMetrics(metrics) && IsMetrics(finished)
    modifies store, host
    ensures Admit(Rotate, input).Raises? ==> r == Raised(Admit(Rotate, input).exception) && built == r
    ensures !Admit(Rotate, input).Raises? ==> r == Returned(finished) && built.Returned?
    ensures r.Returned? ==> IsMetrics(r.response) && ExactlyOneOutcome(built.response)
    ensures Admit(Rotate, input).Rejects? ==> built == Returned(WithError(metrics, MissingNamesMessage(Rotate)))
    ensures !Admit(Rotate, input).Admits? ==> store.log == old(store.log) && store.objects == old(store.objects)
    ensures Admit(Rotate, input).Admits? ==>
      var loc := Admit(Rotate, input).loc;
      var s := Pipeline(codec, Rotate, loc.key, DataOf(old(store.Lookup(loc))), FaultAt(old(store.faults), OutputLoc(Rotate, loc)));
      && built == Returned(Respond(metrics, s))
      && (s.Done? ==> store.objects == old(store.objects)[OutputLoc(Rotate, loc) := s.upload])
      && (s.Fail? ==> store.objects == old(store.objects))
    ensures store.faults == old(store.faults)
    ensures host.Valid() && host.files == old(host.files) && host.created == old(host.created)
    ensures old(host.openStreams) <= host.openStreams
  {
    var response := HandleRequest(store, host, codec, Rotate, input, metrics);
    built := response;
    if response.Raised? {
      return response, built;
    }
    r := Returned(finished);
  }
}
