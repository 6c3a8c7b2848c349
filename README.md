# Image transformation handlers, modelled in Dafny

This project models nine AWS Lambda handlers. Each handler reads an image from S3, transforms it, and writes the result back under a derived key. There are three transforms (rotate a quarter turn clockwise, grayscale, resize to 128 by 128), each written three times: the ChatGPT, Copilot and Gemini variants. The handlers share the same plumbing but differ in the details, and the model makes those differences precise:

- how the request map is validated, and whether a bad request ends in an error map or an escaping exception;
- whether a large object is spooled through /tmp (the 8192-byte copy loop, the threshold rule);
- which image type the output gets and what happens to TYPE_CUSTOM sources;
- the three grayscale pixel rules (rounded or truncated luminosity, alpha kept or forced opaque);
- the output format and content type (PNG fallback, key suffix, key extension, none);
- the response map (metrics plus exactly one of `outputKey` and `error`);
- the cleanup the `finally` blocks owe: temporary files deleted, streams closed.

Each handler family is one module (`ChatGptHandlers`, `CopilotHandlers`, `GeminiHandlers`) parameterised by the transform. Each family states its pipeline twice. A specification function (`Pipeline`, with `Convert`, `Finish` or `Upload`) says what the outcome of the try block is, as a function of what the store holds and of which PUT fails. Methods (`HandleRequest`, `Process`, …) perform the work step by step on an object store and a host, and they are proved to produce exactly that outcome. Their contracts also state the new store contents and that the host's temporary files and open streams are back to what they were (or, for Gemini, that exactly one stream is left open).

Collaborators are modelled as follows:

- **S3** is `Storage.ObjectStore`, a deterministic fake with an object map, a map of failing locations and a request log.
- **The Lambda host** is `HostEnv.Host`, which holds the temporary files and open stream handles.
- **ImageIO** is `ImageCodec.Codec`, a value holding the format sniffer, the reader and the writer as functions.
- **AWT drawing** is recorded symbolically: a drawn image remembers the operation and the source (`Images.Content.Drawn`).
- **The metrics map** (SAAF Inspector / SAAMetrics) is a parameter with no `outputKey` or `error` entry.
- **Free memory** is a parameter.

The handlers depart from the single pipeline they were written against in several ways. The model follows the code each time:

- Only the ChatGPT handlers fall back to PNG when no writer exists. Copilot and Gemini ignore `ImageIO.write`'s result and upload an empty object.
- Only Copilot rejects empty names and inline payloads.
- Copilot and Gemini let some bad requests escape as exceptions.
- Copilot's error maps carry no metrics.
- The ChatGPT spool branch is dead.
- Gemini truncates the luminosity instead of rounding it. Combined with double arithmetic, this darkens some grey levels by one on every pass.
- Gemini never closes the S3 stream.
- Gemini's rotate handler returns the inspector's map instead of its response.

## Model

| member | source | states |
|---|---|---|
| Streams.ByteSource.Read | ChatGPT-rotateImage/src/main/java/org/example/Handler.java:210 | `read` returns -1 exactly at end of stream; otherwise it returns 1 to buffer-length bytes, which are the next bytes of the content, in order |
| Streams.ByteSink.Write | ChatGPT-rotateImage/src/main/java/org/example/Handler.java:211 | `write(buf, 0, r)` appends exactly `buf[0..r]` to what was already written |
| Streams.CopyStream | ChatGPT-rotateImage/src/main/java/org/example/Handler.java:207-213 | the loop stops only at end of stream; the sink then holds exactly the source's remaining bytes, in order; each write is 1 to 8192 bytes and the writes concatenate to the input |
| HostEnv.Copy | Copilot-rotateImage/src/main/java/org/example/Handler.java:99-103 | the bytes that pass through the 8192-byte spool loop equal the object's content |
| HostEnv.CopyIntoFile | ChatGPT-rotateImage/src/main/java/org/example/Handler.java:88-91 | after the copy the temporary file holds exactly the object's bytes; both try-with-resources streams are closed again; no other file or stream changes |
| HostEnv.Host.CreateTempFile | Copilot-rotateImage/src/main/java/org/example/Handler.java:93 | `createTempFile` makes a fresh empty file named prefix + suffix; existing files and streams are unchanged |
| HostEnv.Host.WriteFile | Copilot-rotateImage/src/main/java/org/example/Handler.java:98 | the file's content is replaced and its name kept; nothing else changes |
| HostEnv.Host.DeleteFile | Copilot-rotateImage/src/main/java/org/example/Handler.java:183-185 | `deleteIfExists` removes exactly that file (a no-op when absent) |
| HostEnv.Host.OpenStream | ChatGPT-rotateImage/src/main/java/org/example/Handler.java:95 | a fresh handle joins the open streams; the files are untouched |
| HostEnv.Host.CloseStream | ChatGPT-rotateImage/src/main/java/org/example/Handler.java:169 | the handle leaves the open streams |
| HostEnv.GrowsThenShrinks | Copilot-rotateImage/src/main/java/org/example/Handler.java:178-188 | if the try block only added the temporary files it recorded, deleting exactly those files in `finally` restores the file table as it was on entry |
| Storage.ObjectStore.HeadObject | Copilot-rotateImage/src/main/java/org/example/Handler.java:75-80 | the HEAD reports the stored length and content type, or the location's error (injected fault or NoSuchKey); the store is unchanged and the request is logged |
| Storage.ObjectStore.GetObject | ChatGPT-rotateImage/src/main/java/org/example/Handler.java:95 | the GET yields the stored bytes or the location's error; the store is unchanged and the request is logged |
| Storage.ObjectStore.PutObject | Copilot-rotateImage/src/main/java/org/example/Handler.java:143-148 | the PUT succeeds iff the location has no fault; on success the object map changes at exactly that location, to the given bytes and content type; on failure nothing is stored |
| Spool.ShouldUseTmp | ChatGPT-rotateImage/src/main/java/org/example/Handler.java:199-204 | ChatGPT `shouldUseTmp` holds iff the length is positive and more than half the free heap (integer division) |
| Spool.ChatGptNeverSpools | ChatGPT-rotateImage/src/main/java/org/example/Handler.java:77-79 | with the hard-wired length -1 the spool decision is false for every free-heap value, so the /tmp branch is dead |
| Spool.Threshold | Copilot-rotateImage/src/main/java/org/example/Handler.java:85-87 | the Copilot threshold is at least 5 MiB, is 5 MiB or at most half the free memory, and is at least half the free memory rounded down |
| Spool.UseTmp | Copilot-rotateImage/src/main/java/org/example/Handler.java:89 | Copilot spools iff the length exceeds both 5 MiB and half the free memory |
| Spool.SmallObjectsNeverSpool | Copilot-resizeImage/src/main/java/com/example/resizeimage/Handler.java:79-80 | lengths up to 5 MiB, non-positive ones included, never spool |
| Spool.CopilotSpoolsLess | Copilot-grayscaleImage/src/main/java/com/example/grayscaleimage/Handler.java:77-78 | every length the Copilot rule spools is one the ChatGPT rule would spool too |
| Spool.ReferenceDecisions | Copilot-grayscaleImage/src/main/java/com/example/grayscaleimage/Handler.java:75-78 | 10 000 000 bytes with 4 000 000 free spools; 1 000 000 bytes with 100 000 000 free does not |
| Spool.ToInt | Copilot-resizeImage/src/main/java/com/example/resizeimage/Handler.java:131 | Java's `(int)` cast of a `long` lies in the int range, is congruent to its argument modulo 2^32, and is the identity on ints |
| Spool.InitialCapacity | Copilot-resizeImage/src/main/java/com/example/resizeimage/Handler.java:131 | the in-memory output buffer starts with at least 32 KiB and at most Integer.MAX_VALUE bytes, and with the object's own length when that lies between them |
| KeyNames.ToLower | Copilot-rotateImage/src/main/java/org/example/Handler.java:201 | `toLowerCase(Locale.ROOT)` keeps the length, leaves no upper-case ASCII letter, and maps each character on its own |
| KeyNames.ToLowerIdempotent | Copilot-rotateImage/src/main/java/org/example/Handler.java:201 | lower-casing twice is lower-casing once |
| KeyNames.FormatFromKey | Copilot-rotateImage/src/main/java/org/example/Handler.java:200-206 | `formatFromKey` is "jpg" or "png", and "jpg" exactly when the lower-cased key ends in ".jpg" or ".jpeg" |
| KeyNames.FormatIgnoresCase | Copilot-grayscaleImage/src/main/java/com/example/grayscaleimage/Handler.java:185-190 | the format does not depend on the letter case of the key |
| KeyNames.ContentTypeForFormat | Copilot-rotateImage/src/main/java/org/example/Handler.java:208-210 | `contentTypeForFormat` is "image/jpeg" exactly for "jpg" in any case, and "image/png" otherwise |
| KeyNames.ContentTypeOfKey | Copilot-rotateImage/src/main/java/org/example/Handler.java:81-82 | the content type a Copilot handler writes is "image/jpeg" exactly for keys ending in .jpg or .jpeg (any case) |
| KeyNames.SanitizeFilename | Copilot-rotateImage/src/main/java/org/example/Handler.java:212-214 | `sanitizeFilename` keeps the length; it keeps each character of `[A-Za-z0-9._-]` in place and turns every other into '_'; its output contains only allowed characters |
| KeyNames.SanitizeIdempotent | Copilot-grayscaleImage/src/main/java/com/example/grayscaleimage/Handler.java:196-198 | sanitizing twice is sanitizing once |
| KeyNames.SanitizeFixesSafeNames | Copilot-resizeImage/src/main/java/com/example/resizeimage/Handler.java:187-189 | a name is left unchanged exactly when all of its characters are already allowed |
| KeyNames.LastIndexOf | Gemini-rotateImage/src/main/java/lambda/Handler.java:71 | `lastIndexOf` is -1 iff the character is absent; otherwise that position holds it and no later position does |
| KeyNames.ExtensionFormat | Gemini-rotateImage/src/main/java/lambda/Handler.java:71 | with a '.', the format is the text after the last '.' and the key is prefix + "." + format (the format has no '.'); without a '.', it is "png" |
| KeyNames.LowerKeyEndsWithExtension | Gemini-resizeImage/src/main/java/lambda/Handler.java:59 | the lower-cased key ends with "." followed by the lower-cased extension |
| KeyNames.JpegExtensionAgrees | Gemini-grayscaleImage/src/main/java/lambda/Handler.java:74 | a key whose extension is jpg or jpeg (any case) gets format "jpg" from the Copilot rule too |
| KeyNames.PngExtensionAgrees | Gemini-resizeImage/src/main/java/lambda/Handler.java:59 | a key whose extension is png (any case) gets format "png" from the Copilot rule too |
| KeyNames.ChatGptContentType | ChatGPT-rotateImage/src/main/java/org/example/Handler.java:153 | the ChatGPT upload's content type is the source object's content type when the HEAD reported one, else "image/" + the format written |
| Levels.LevelRoundTrip | ChatGPT-greyscaleImage/src/main/java/org/example/Handler.java:117-120 | a channel level 0..255 survives the conversion to a byte and back |
| Argb.Pack | ChatGPT-greyscaleImage/src/main/java/org/example/Handler.java:122 | `(a << 24) \| (g << 16) \| (g << 8) \| g` unpacks to exactly the four bytes packed |
| Argb.PackUnpack | ChatGPT-greyscaleImage/src/main/java/org/example/Handler.java:116-122 | unpacking a word with the four shifts and masks and packing the bytes again gives the same word |
| Argb.ToByte | ChatGPT-greyscaleImage/src/main/java/org/example/Handler.java:117-120 | a level in 0..255 becomes the byte with that value |
| Argb.ToByteOfLevel | ChatGPT-greyscaleImage/src/main/java/org/example/Handler.java:117-120 | converting a byte to its level and back gives the byte |
| Argb.WeightedSum | ChatGPT-greyscaleImage/src/main/java/org/example/Handler.java:121 | the luminosity in hundredths lies in 0..25500, and is 100·v for a grey pixel of level v |
| Argb.RoundedLuma | ChatGPT-greyscaleImage/src/main/java/org/example/Handler.java:121 | `Math.round(0.21r + 0.72g + 0.07b)` is a level in 0..255 within half a unit of the exact luminosity; a grey pixel keeps its level |
| Argb.TruncatedLuma | Gemini-grayscaleImage/src/main/java/lambda/Handler.java:61 | the `(int)` cast of the luminosity, taken on the exact weighted sum, is a level in 0..255 within one unit below that sum; on that exact sum a grey pixel keeps its level (Java's double sum does not always, see Left out) |
| Argb.RoundingVersusTruncation | Gemini-grayscaleImage/src/main/java/lambda/Handler.java:61 | the rounded luminosity is the truncated one or one more |
| Argb.Clamp | Gemini-grayscaleImage/src/main/java/lambda/Handler.java:63-65 | the clamp yields a level in 0..255; it is the identity on levels and saturates above and below |
| Argb.ClampIsNoOp | Gemini-grayscaleImage/src/main/java/lambda/Handler.java:63-65 | the Gemini clamp never changes the truncated luminosity |
| Argb.ChatGptGray | ChatGPT-greyscaleImage/src/main/java/org/example/Handler.java:116-123 | the ChatGPT pixel is grey, keeps the source alpha, and has the rounded luminosity |
| Argb.CopilotGray | Copilot-grayscaleImage/src/main/java/com/example/grayscaleimage/Handler.java:115-124 | the Copilot pixel is grey with the rounded luminosity; its alpha is the source alpha when the colour model has alpha, else 0xFF |
| Argb.GeminiGray | Gemini-grayscaleImage/src/main/java/lambda/Handler.java:52-68 | the Gemini pixel is grey, keeps the source alpha, and has the truncated, clamped luminosity |
| Argb.GreyIsFixed | ChatGPT-greyscaleImage/src/main/java/org/example/Handler.java:121 | the ChatGPT rule leaves a grey pixel unchanged; so does the Gemini rule taken on the exact luminosity (not the double-precision one, see Left out) |
| Argb.GreyIsFixedCopilot | Copilot-grayscaleImage/src/main/java/com/example/grayscaleimage/Handler.java:120-123 | the Copilot rule leaves a grey pixel unchanged when its alpha survives the rule |
| Argb.GrayIdempotent | Copilot-grayscaleImage/src/main/java/com/example/grayscaleimage/Handler.java:113-126 | the ChatGPT and Copilot pixel rules applied twice equal the rule applied once; so does the Gemini rule taken on the exact luminosity (not the double-precision one, see Left out) |
| Argb.CopilotMatchesChatGpt | Copilot-grayscaleImage/src/main/java/com/example/grayscaleimage/Handler.java:121-123 | the Copilot and ChatGPT pixels agree exactly when the colour model has alpha or the pixel is opaque |
| Argb.GeminiAtMostOneDarker | Gemini-grayscaleImage/src/main/java/lambda/Handler.java:61 | the Gemini grey level is the ChatGPT grey level or one below it |
| Argb.RoundingAndTruncationDisagree | Gemini-grayscaleImage/src/main/java/lambda/Handler.java:61 | the opaque pixel with red 3 and no green or blue shows the difference: level 1 for ChatGPT, 0 for Gemini |
| PixelLoop.MapPixels | ChatGPT-greyscaleImage/src/main/java/org/example/Handler.java:114-125 | the nested y/x loop writes every position of the w×h raster exactly once; the raster then holds the rule applied to every source pixel |
| PixelLoop.MapGrid | ChatGPT-greyscaleImage/src/main/java/org/example/Handler.java:114-125 | the mapped raster has the source's shape, and each word is the rule applied to the source word at the same position |
| PixelLoop.MapGridIdempotent | ChatGPT-greyscaleImage/src/main/java/org/example/Handler.java:114-125 | mapping an idempotent pixel rule over a raster twice equals mapping it once |
| Images.JavaDiv | Gemini-rotateImage/src/main/java/lambda/Handler.java:63 | Java's `/` on int truncates toward zero, for negative dividends too |
| Images.TurnPoint | Gemini-rotateImage/src/main/java/lambda/Handler.java:63-64 | a quarter turn about the pivot followed by a translation: the pivot itself only moves by the translation |
| Images.TurnIsClockwiseQuarter | ChatGPT-rotateImage/src/main/java/org/example/Handler.java:133-136 | `rotate(Math.toRadians(90))` turns clockwise on screen: a step right becomes a step down, a step down becomes a step left |
| Images.NewImage | Gemini-rotateImage/src/main/java/lambda/Handler.java:59 | `new BufferedImage(w, h, type)` fails with "Unknown image type 0" exactly for TYPE_CUSTOM; otherwise it is w×h of that type, with alpha iff the type has alpha |
| Images.ChatGptDestType | ChatGPT-rotateImage/src/main/java/org/example/Handler.java:130 | the ChatGPT output type is the source type, or TYPE_INT_ARGB for TYPE_CUSTOM, and AWT always accepts it |
| Images.CopilotDestType | Copilot-rotateImage/src/main/java/org/example/Handler.java:122 | the Copilot output type is TYPE_INT_ARGB when the source has alpha and TYPE_INT_RGB otherwise |
| Images.ChatGptDestTypeAccepted | ChatGPT-resizeImage/src/main/java/org/example/Handler.java:113 | the ChatGPT canvases are always created, while the source's own type (what Gemini uses) fails exactly for TYPE_CUSTOM |
| Images.Paint | ChatGPT-resizeImage/src/main/java/org/example/Handler.java:114-119 | drawing on a canvas keeps its size and type and records the operation and the source |
| Images.TranslatedTurnCoversCanvas | ChatGPT-rotateImage/src/main/java/org/example/Handler.java:133-137 | translating by the source height and turning a quarter about the origin maps every source corner onto a corner of the swapped canvas (ChatGPT and Copilot rotation) |
| ImageCodec.DetectFormatName | ChatGPT-rotateImage/src/main/java/org/example/Handler.java:216-238 | `detectFormatName` is null exactly when no reader claims the bytes, else the reader's format name lower-cased |
| ImageCodec.EncodeWithFallback | ChatGPT-rotateImage/src/main/java/org/example/Handler.java:143-149 | the upload format is the detected one or "png", and it differs from the detected one only when no writer exists for that; a successful first write is uploaded as is; non-empty bytes are a writer's output for the recorded format; a writer's IOException is the failure |
| ImageCodec.EncodeIgnoringResult | Copilot-rotateImage/src/main/java/org/example/Handler.java:152 | the bytes are the writer's output; a missing writer leaves them empty without failing; only the writer's IOException fails |
| Envelope.Field | ChatGPT-rotateImage/src/main/java/org/example/Handler.java:65-67 | `input.get(name)` is non-null exactly when the key is present with a non-null value |
| Envelope.WithOutputKey | ChatGPT-rotateImage/src/main/java/org/example/Handler.java:162-164 | the success map is the metrics plus `outputKey`, with exactly one outcome key |
| Envelope.WithError | ChatGPT-rotateImage/src/main/java/org/example/Handler.java:190-196 | the error map is the metrics plus `error`, with exactly one outcome key |
| Envelope.ErrorOnly | Copilot-rotateImage/src/main/java/org/example/Handler.java:216-220 | Copilot's `error(message)` holds only the `error` key |
| Jobs.OutputPrefix | ChatGPT-greyscaleImage/src/main/java/org/example/Handler.java:127 | every transform's output prefix ("rotated-", "grayscale-", "resized-") is non-empty and ends in '-' |
| Jobs.OutputLoc | ChatGPT-resizeImage/src/main/java/org/example/Handler.java:121-134 | the result goes to the same bucket under prefix + key, which is never the source location |
| ChatGptHandlers.ValidateRequest | ChatGPT-rotateImage/src/main/java/org/example/Handler.java:61-72 | a null map fails with "Input map is null"; a null bucket or key fails with "Missing bucket or key"; otherwise the location is the two values as text, empty strings included |
| ChatGptHandlers.EmptyNamesAccepted | ChatGPT-rotateImage/src/main/java/org/example/Handler.java:67-72 | empty bucket and key strings pass validation |
| ChatGptHandlers.TrimTrailingSlashes | ChatGPT-rotateImage/src/main/java/org/example/Handler.java:87 | the trimmed path is a prefix of the path, does not end in '/', and only '/' characters were removed |
| ChatGptHandlers.BaseName | ChatGPT-rotateImage/src/main/java/org/example/Handler.java:87 | `new File(key).getName()` contains no '/', is no longer than the key, and is the key itself when the key has no '/' |
| ChatGptHandlers.Transformed | ChatGPT-rotateImage/src/main/java/org/example/Handler.java:127-138 | rotate: the canvas is the source's height by width; resize: 128×128 (ChatGPT-resizeImage/src/main/java/org/example/Handler.java:111-119); both have the ChatGPT destination type and show the source drawn on them; grayscale: TYPE_BYTE_GRAY, the source's size, each pixel the ChatGPT grey of the source pixel (ChatGPT-greyscaleImage/src/main/java/org/example/Handler.java:109-125) |
| ChatGptHandlers.GrayscaleTwiceIsOnce | ChatGPT-greyscaleImage/src/main/java/org/example/Handler.java:114-125 | greyscaling the greyscale output's pixels again changes none of them |
| ChatGptHandlers.Render | ChatGPT-greyscaleImage/src/main/java/org/example/Handler.java:109-125 | the drawing and the pixel loop produce exactly the image `Transformed` describes |
| ChatGptHandlers.Finish | ChatGPT-rotateImage/src/main/java/org/example/Handler.java:120-156 | a failed re-read gives "Exception: " + its message; success needs a decodable image and a fault-free PUT, stores under prefix + key, uses the source content type or else "image/" + the format written, and non-empty bytes are a writer's output for the detected format or PNG |
| ChatGptHandlers.Convert | ChatGPT-rotateImage/src/main/java/org/example/Handler.java:95-103 | a failed GET gives "Exception: " + message; no detected format gives "Unsupported or unknown image format for key: " + key; success needs a detected format and a decodable image |
| ChatGptHandlers.Pipeline | ChatGPT-resizeImage/src/main/java/org/example/Handler.java:65-135 | a failed HEAD gives "Exception: " + message; success means the source exists, is recognised and decodes, the PUT location has no fault, and the content type is the source's or derived from the format written |
| ChatGptHandlers.Respond | ChatGPT-resizeImage/src/main/java/org/example/Handler.java:141-143 | the response is the metrics plus `outputKey` on success and plus `error` on failure |
| ChatGptHandlers.Store | ChatGPT-resizeImage/src/main/java/org/example/Handler.java:105-135 | decoding, transforming, encoding and PUT produce `Finish`'s outcome; the object map gains exactly the upload on success and is unchanged on failure |
| ChatGptHandlers.SpoolToFile | ChatGPT-rotateImage/src/main/java/org/example/Handler.java:85-92 | the /tmp branch creates a file named "s3img-" + "-" + base name that holds the object's bytes; a file stream is open exactly when the GET succeeded |
| ChatGptHandlers.OpenSource | ChatGPT-rotateImage/src/main/java/org/example/Handler.java:84-96 | opening the source yields what the GET yields; a stream is open exactly when it succeeded; a temporary file exists exactly in the /tmp branch |
| ChatGptHandlers.Rewind | ChatGPT-rotateImage/src/main/java/org/example/Handler.java:105-118 | after sniffing, `reset()` or reopening the file gives the same bytes; reopening from S3 gives a fresh GET's result; at most the one stream stays open |
| ChatGptHandlers.Process | ChatGPT-rotateImage/src/main/java/org/example/Handler.java:79-166 | the inner try produces `Convert`'s outcome on the store as it was on entry; it creates no temporary file unless the spool decision holds; only the returned stream and file are new |
| ChatGptHandlers.Cleanup | ChatGPT-rotateImage/src/main/java/org/example/Handler.java:167-175 | the `finally` block closes the stream and deletes the temporary file, and nothing else |
| ChatGptHandlers.HandleRequest | ChatGPT-rotateImage/src/main/java/org/example/Handler.java:50-182 | exactly one of `outputKey`/`error`, metrics always present; a validation failure makes no storage request; otherwise the response and the new object map are `Pipeline`'s outcome; no temporary file is ever created, and the files and open streams on return are those on entry (also ChatGPT-greyscaleImage/src/main/java/org/example/Handler.java:43-166, ChatGPT-resizeImage/src/main/java/org/example/Handler.java:44-160) |
| CopilotHandlers.ValidateRequest | Copilot-rotateImage/src/main/java/org/example/Handler.java:55-65 | a request passes iff both names are present and non-empty and no inline payload key is present; the names are checked first ("Missing 'bucket' or 'key' in input."), then the payload |
| CopilotHandlers.NamesCheckedBeforePayload | Copilot-grayscaleImage/src/main/java/com/example/grayscaleimage/Handler.java:49-57 | an empty key is refused for the names even when an inline payload is present; with valid names the payload is refused |
| CopilotHandlers.StorageMessage | Copilot-rotateImage/src/main/java/org/example/Handler.java:170-173 | a missing object is reported as "S3 object not found: " + message, any other S3 error as "S3 error: " + the service's message |
| CopilotHandlers.TempPrefix | Copilot-rotateImage/src/main/java/org/example/Handler.java:93 | the temporary file names begin with a word ("rotate", "gray", "resize") whose first four letters are those of the output prefix (also Copilot-rotateImage/src/main/java/org/example/Handler.java:141) |
| CopilotHandlers.GrayRule | Copilot-grayscaleImage/src/main/java/com/example/grayscaleimage/Handler.java:121-123 | the rule applied to every pixel is the Copilot grey for the source's colour model |
| CopilotHandlers.Transformed | Copilot-rotateImage/src/main/java/org/example/Handler.java:119-135 | the output type is ARGB iff the source has alpha, else RGB; rotate swaps the dimensions; resize is 128×128 (Copilot-resizeImage/src/main/java/com/example/resizeimage/Handler.java:108-117); grayscale keeps the size and holds the Copilot grey of each pixel (Copilot-grayscaleImage/src/main/java/com/example/grayscaleimage/Handler.java:106-126) |
| CopilotHandlers.GrayscaleTwiceIsOnce | Copilot-grayscaleImage/src/main/java/com/example/grayscaleimage/Handler.java:113-126 | graying the grayscale output again changes none of its pixels |
| CopilotHandlers.Render | Copilot-rotateImage/src/main/java/org/example/Handler.java:120-135 | the drawing and the pixel loop produce exactly the image `Transformed` describes |
| CopilotHandlers.Upload | Copilot-rotateImage/src/main/java/org/example/Handler.java:137-160 | the format and content type come from the key; a missing writer still uploads (an empty object) and succeeds; a writer IOException gives "I/O error: "; a PUT failure gives the storage message |
| CopilotHandlers.Convert | Copilot-grayscaleImage/src/main/java/com/example/grayscaleimage/Handler.java:80-104 | a failed GET gives the storage message; no reader gives "Invalid image or unsupported format for key: " + key; success needs a decodable image |
| CopilotHandlers.Pipeline | Copilot-resizeImage/src/main/java/com/example/resizeimage/Handler.java:67-147 | a failed HEAD gives the storage message; success means the source decodes, the PUT location has no fault, the key is prefix + key, and the content type follows the key |
| CopilotHandlers.Respond | Copilot-rotateImage/src/main/java/org/example/Handler.java:166-168 | success is the metrics plus `outputKey`; failure is a map holding only `error` |
| CopilotHandlers.LoadSource | Copilot-rotateImage/src/main/java/org/example/Handler.java:91-113 | the source bytes are what the GET yields; exactly in the /tmp branch one new temporary input file is added, and no stream stays open; otherwise the S3 stream stays open, recorded for `finally` |
| CopilotHandlers.StoreResult | Copilot-rotateImage/src/main/java/org/example/Handler.java:137-160 | the encode and PUT produce `Upload`'s outcome; the /tmp branch adds exactly one temporary output file; the store changes at the output location only on success |
| CopilotHandlers.Continue | Copilot-resizeImage/src/main/java/com/example/resizeimage/Handler.java:82-140 | from the GET on, the outcome is `Convert`'s; only the recorded stream and temporary files are new; nothing is created when not spooling |
| CopilotHandlers.Process | Copilot-grayscaleImage/src/main/java/com/example/grayscaleimage/Handler.java:65-80 | the try block's outcome is `Pipeline`'s on the store as it was on entry, and the new object map follows it; the only new stream and temporary files are the recorded ones |
| CopilotHandlers.Cleanup | Copilot-grayscaleImage/src/main/java/com/example/grayscaleimage/Handler.java:166-176 | the `finally` block closes the S3 stream and deletes both temporary files, and nothing else |
| CopilotHandlers.HandleRequest | Copilot-rotateImage/src/main/java/org/example/Handler.java:43-192 | a null map escapes as NullPointerException; a refused request makes no storage request and returns only `error`; otherwise the response and the new object map are `Pipeline`'s outcome; on every path the files and open streams on return are those on entry |
| GeminiHandlers.Admit | Gemini-rotateImage/src/main/java/lambda/Handler.java:38-45 | a null map escapes as NullPointerException and a non-string name as ClassCastException, both before the try; a null name is rejected inside it; otherwise the two strings are the location, empty ones included |
| GeminiHandlers.MissingNamesMessage | Gemini-rotateImage/src/main/java/lambda/Handler.java:43-45 | a null name gives "Missing bucket or key in input JSON" exactly for rotate and "Missing bucket or key" for the others (Gemini-grayscaleImage/src/main/java/lambda/Handler.java:35) |
| GeminiHandlers.NoReaderMessage | Gemini-rotateImage/src/main/java/lambda/Handler.java:52-54 | an unreadable image gives "Failed to read image. Format might be unsupported." exactly for rotate, and "Invalid image format" for the others (Gemini-grayscaleImage/src/main/java/lambda/Handler.java:41) |
| GeminiHandlers.AdmittedByChatGptToo | Gemini-resizeImage/src/main/java/lambda/Handler.java:33-40 | every request Gemini admits passes ChatGPT validation with the same location |
| GeminiHandlers.NumericNameRaises | Gemini-grayscaleImage/src/main/java/lambda/Handler.java:30-31 | a numeric bucket makes Gemini throw ClassCastException while ChatGPT accepts it as text |
| GeminiHandlers.RotationCoversCanvasIff | Gemini-rotateImage/src/main/java/lambda/Handler.java:63-64 | the Gemini translate-and-rotate maps the source corners onto the swapped canvas's corners iff height - width is even; otherwise the truncated `(height - width) / 2` shift leaves the picture half a pixel off on both axes |
| GeminiHandlers.Turn | Gemini-rotateImage/src/main/java/lambda/Handler.java:63-64 | the Gemini rotation pivots at (height/2, width/2) and shifts both axes by `(height - width) / 2`: exactly half the difference when it is even, else half a pixel nearer zero |
| GeminiHandlers.CanvasWidth | Gemini-resizeImage/src/main/java/lambda/Handler.java:49 | every canvas width is positive (source height, source width, or 128) |
| GeminiHandlers.CanvasHeight | Gemini-resizeImage/src/main/java/lambda/Handler.java:49 | every canvas height is positive (source width, source height, or 128) |
| GeminiHandlers.Transformed | Gemini-rotateImage/src/main/java/lambda/Handler.java:57-66 | the output keeps the source type, so a TYPE_CUSTOM source fails with "Unknown image type 0"; rotate swaps the dimensions; resize is 128×128 drawn bilinearly (Gemini-resizeImage/src/main/java/lambda/Handler.java:49-55); grayscale keeps the size and holds the truncated grey of each pixel with alpha kept (Gemini-grayscaleImage/src/main/java/lambda/Handler.java:44-70) |
| GeminiHandlers.GrayscaleTwiceIsOnce | Gemini-grayscaleImage/src/main/java/lambda/Handler.java:50-70 | with the luminosity taken exactly, greyscaling the grayscale output again changes none of its pixels (Java's double sum breaks this, see Left out) |
| GeminiHandlers.Render | Gemini-grayscaleImage/src/main/java/lambda/Handler.java:48-70 | creating the canvas, drawing, and the nested pixel loop produce exactly `Transformed` |
| GeminiHandlers.Upload | Gemini-resizeImage/src/main/java/lambda/Handler.java:58-64 | the format is the key's extension; a missing writer uploads an empty object; the PUT carries no content type; a writer or PUT failure gives its bare message |
| GeminiHandlers.Pipeline | Gemini-grayscaleImage/src/main/java/lambda/Handler.java:37-86 | a failed GET gives its message; an unreadable image gives the transform's message; a TYPE_CUSTOM source gives "Unknown image type 0"; success is the upload of the transformed image under prefix + key |
| GeminiHandlers.Respond | Gemini-resizeImage/src/main/java/lambda/Handler.java:66-81 | putting the outcome and then `putAll` of the metrics gives the metrics plus exactly one of `outputKey`/`error` |
| GeminiHandlers.Local | Gemini-grayscaleImage/src/main/java/lambda/Handler.java:81-85 | the try block leaves exactly one entry: `outputKey` with the new key on success, `error` with the message on failure |
| GeminiHandlers.Answer | Gemini-grayscaleImage/src/main/java/lambda/Handler.java:81-94 | building the map with `put` and then `putAll` gives exactly `Respond`'s map |
| GeminiHandlers.Process | Gemini-resizeImage/src/main/java/lambda/Handler.java:43-64 | from the GET to the PUT the outcome is `Pipeline`'s on the store as it was on entry; the stream the GET opens stays open, exactly when the GET succeeded; no file is touched |
| GeminiHandlers.HandleRequest | Gemini-grayscaleImage/src/main/java/lambda/Handler.java:27-97 | an exception before the try escapes; a rejected request makes no storage request and returns the metrics plus `error`; otherwise the response and the new object map are `Pipeline`'s outcome; exactly one stream is leaked when the GET succeeded, none otherwise (also Gemini-resizeImage/src/main/java/lambda/Handler.java:30-82) |
| GeminiHandlers.HandleRotateRequest | Gemini-rotateImage/src/main/java/lambda/Handler.java:30-100 | the rotate handler does the same work, but unless an exception escapes it returns the inspector's map, which holds neither `outputKey` nor `error`; the response it built and dropped holds exactly one of them |

## Left out

- The AWS SDK clients, the Lambda runtime and credentials are left out. S3 is the fake object store; which exception class a request raises is decided by the kind of error the store holds for that location.
- ImageIO's readers and writers are functions held by `ImageCodec.Codec`. The 32 KiB mark/reset limit in `detectFormatName` and the `BufferedInputStream` wrapping are not modelled: sniffing is a function of the whole content.
- The pixels that AWT draws for rotation and resizing are not computed. A drawn image records the operation and its source, and the quarter-turn placement is checked only at the source's corners. Bilinear sampling, the floating-point affine transform and the rounding of the half-pixel pivot are out of scope.
- Argb: the luminosity is computed exactly in hundredths (21/72/7). This is not IEEE doubles: `Math.round` is modelled as floor(x + 1/2) and the `(int)` cast as truncation.
- Argb.TruncatedLuma: the grey-keeps-its-level clause holds for the exact sum only. In Java's doubles `(0.21*5)+(0.72*5)+(0.07*5)` is 4.999999999999999, so the cast gives 4; 46 of the 256 grey levels (5, 10, 20, 40, 41, 43, ...) drop by one. The rounded ChatGPT and Copilot rule keeps every grey level in doubles too.
- Argb.GreyIsFixed: the Gemini half is not true of the program: in doubles the grey pixel of level 5 becomes level 4.
- Argb.GrayIdempotent: the Gemini conjunct is not true of the program: an opaque (5, 5, 6) pixel greys to 5 in the first pass and to 4 in the second.
- GeminiHandlers.GrayscaleTwiceIsOnce: for the same reason, greyscaling a Gemini output again can darken pixels by one level in the program; the lemma is about the exact-luminosity rule.
- `setRGB` on a TYPE_BYTE_GRAY, TYPE_INT_RGB or other non-ARGB raster converts the word through the colour model. The model records the ARGB word the loop passes to `setRGB`.
- KeyNames.ToLower: only ASCII letters are lower-cased. Locale-sensitive and non-ASCII case mapping is not modelled.
- The random middle part of `createTempFile` names is not modelled, and neither are the file-system errors it can raise.
- Mid-stream I/O failures are not modelled. A GET either fails as a whole or yields the whole object.
- The SAAF Inspector and SAAMetrics objects, `System.currentTimeMillis` and `Runtime.freeMemory` are not modelled; the metrics map and the free memory are parameters.
- ChatGptHandlers.HandleRequest assumes the HEAD returns metadata (`getObjectMetadata` never returns null for an existing object). The `metadata != null` guard on the discarded length is not modelled.
- Exception messages are strings. A null `getMessage()` is not modelled: ChatGPT's "Exception: null", Copilot's "... null" and Gemini's `error` entry holding null.
- CopilotHandlers.HandleRequest: the `Unexpected error:` catch is not reachable in the model, because every modelled failure is a storage error or an IOException. Runtime exceptions from AWT or ImageIO (for example an OutOfMemoryError or an IllegalArgumentException from a writer) are not modelled.
- CopilotHandlers.Process requires object sizes within S3's 5 TiB limit, so that the HEAD length fits a Java `long`.
- Concurrency and timeouts of the Lambda runtime are not modelled; each invocation is sequential.
