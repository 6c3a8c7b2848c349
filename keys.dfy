/** The string logic around object keys: the Copilot helpers
    (`formatFromKey`, `contentTypeForFormat`, `sanitizeFilename`), the
    Gemini extension-after-the-last-dot rule and the ChatGPT content-type
    choice. Case conversion is ASCII only: every name compared here is ASCII. */
module KeyNames {

  import opened Wrappers

  function LowerChar(c: char): char
  {
    if 'A' <= c <= 'Z' then (c as int + 32) as char else c
  }

  predicate IsLower(s: string)
  {
    forall i :: 0 <= i < |s| ==> !('A' <= s[i] <= 'Z')
  }

  /** `toLowerCase(Locale.ROOT)` on ASCII letters. */
  function ToLower(s: string): (r: string)
    ensures |r| == |s| && IsLower(r)
    ensures forall i {:trigger r[i]} :: 0 <= i < |s| ==> r[i] == LowerChar(s[i])
  {
    seq(|s|, i requires 0 <= i < |s| => LowerChar(s[i]))
  }

  lemma ToLowerIdempotent(s: string)
    ensures ToLower(ToLower(s)) == ToLower(s)
  {
  }

  /** `equalsIgnoreCase` on ASCII. */
  predicate EqualsIgnoreCase(a: string, b: string)
  {
    ToLower(a) == ToLower(b)
  }

  predicate EndsWith(s: string, suffix: string)
  {
    |suffix| <= |s| && s[|s| - |suffix|..] == suffix
  }

  /** Copilot `formatFromKey`. */
  function FormatFromKey(key: string): (f: string)
    ensures f == "jpg" || f == "png"
    ensures f == "jpg" <==> EndsWith(ToLower(key), ".jpg") || EndsWith(ToLower(key), ".jpeg")
  {
    var k := ToLower(key);
    if EndsWith(k, ".jpeg") || EndsWith(k, ".jpg") then "jpg"
    else if EndsWith(k, ".png") then "png"
    else "png"
  }

  /** The format does not depend on the letter case of the key. */
  lemma FormatIgnoresCase(key: string)
    ensures FormatFromKey(ToLower(key)) == FormatFromKey(key)
  {
    ToLowerIdempotent(key);
  }

  /** Copilot `contentTypeForFormat`. */
  function ContentTypeForFormat(fmt: string): (ct: string)
    ensures ct == "image/jpeg" || ct == "image/png"
    ensures ct == "image/jpeg" <==> EqualsIgnoreCase(fmt, "jpg")
  {
    if EqualsIgnoreCase("jpg", fmt) then "image/jpeg" else "image/png"
  }

  /** The content type a Copilot handler writes: JPEG exactly for .jpg and
      .jpeg keys, in any letter case, PNG for everything else. */
  lemma {:induction false} ContentTypeOfKey(key: string)
    ensures ContentTypeForFormat(FormatFromKey(key)) == "image/jpeg"
        <==> EndsWith(ToLower(key), ".jpg") || EndsWith(ToLower(key), ".jpeg")
  {
    var f := FormatFromKey(key);
    if f == "png" {
      assert ToLower(f)[0] == 'p';
      assert ToLower("jpg")[0] == 'j';
    } else {
      assert ToLower(f) == "jpg";
    }
  }

  /** The characters `[A-Za-z0-9._-]` that file names keep. */
  predicate AllowedChar(c: char)
  {
    ('A' <= c <= 'Z') || ('a' <= c <= 'z') || ('0' <= c <= '9') || c == '.' || c == '_' || c == '-'
  }

  /** Copilot `sanitizeFilename`: `replaceAll("[^A-Za-z0-9._-]", "_")`, one
      character at a time. */
  function SanitizeFilename(s: string): (r: string)
    ensures |r| == |s|
    ensures forall i :: 0 <= i < |s| ==> r[i] == (if AllowedChar(s[i]) then s[i] else '_')
    ensures forall i :: 0 <= i < |r| ==> AllowedChar(r[i])
  {
    if s == [] then []
    else [if AllowedChar(s[0]) then s[0] else '_'] + SanitizeFilename(s[1..])
  }

  lemma SanitizeIdempotent(s: string)
    ensures SanitizeFilename(SanitizeFilename(s)) == SanitizeFilename(s)
  {
  }

  /** A name is left alone exactly when it is already safe. */
  lemma SanitizeFixesSafeNames(s: string)
    ensures SanitizeFilename(s) == s <==> forall i :: 0 <= i < |s| ==> AllowedChar(s[i])
  {
    if SanitizeFilename(s) == s {
      forall i | 0 <= i < |s| ensures AllowedChar(s[i]) {
        assert SanitizeFilename(s)[i] == s[i];
      }
    }
  }

  /** `s.lastIndexOf(c)`. */
  function LastIndexOf(s: string, c: char): (i: int)
    ensures -1 <= i < |s|
    ensures i >= 0 ==> s[i] == c && forall j :: i < j < |s| ==> s[j] != c
    ensures i == -1 <==> c !in s
  {
    if |s| == 0 then -1
    else if s[|s| - 1] == c then |s| - 1
    else LastIndexOf(s[..|s| - 1], c)
  }

  /** Gemini: `key.contains(".") ? key.substring(key.lastIndexOf(".") + 1) : "png"`. */
  function ExtensionFormat(key: string): (f: string)
    ensures '.' in key ==> |f| < |key| && '.' !in f && key == key[..|key| - |f| - 1] + "." + f
    ensures '.' !in key ==> f == "png"
  {
    if '.' in key then key[LastIndexOf(key, '.') + 1..] else "png"
  }

  /** The lower-cased key ends with "." and the lower-cased extension. */
  lemma {:induction false} LowerKeyEndsWithExtension(key: string)
    requires '.' in key
    ensures EndsWith(ToLower(key), "." + ToLower(ExtensionFormat(key)))
  {
    var f := ExtensionFormat(key);
    var n := |key|;
    var i := n - |f| - 1;
    var k := ToLower(key);
    var tail := "." + ToLower(f);
    assert key[i..] == "." + f;
    forall j | 0 <= j < n - i
      ensures k[i..][j] == tail[j]
    {
      assert key[i..][j] == ("." + f)[j];
    }
    assert k[i..] == tail;
  }

  lemma JpegSuffix(key: string)
    requires EndsWith(ToLower(key), ".jpg") || EndsWith(ToLower(key), ".jpeg")
    ensures FormatFromKey(key) == "jpg"
  {
  }

  /** The lower-cased key ends with "." and a given lower-cased extension. */
  lemma ExtensionSuffix(key: string, ext: string)
    requires '.' in key && ToLower(ExtensionFormat(key)) == ext
    ensures EndsWith(ToLower(key), "." + ext)
  {
    LowerKeyEndsWithExtension(key);
  }

  lemma DotJpegSuffix(k: string, e: string)
    requires EndsWith(k, "." + e) && (e == "jpg" || e == "jpeg")
    ensures EndsWith(k, ".jpg") || EndsWith(k, ".jpeg")
  {
  }

  /** Where the Copilot and Gemini handlers agree: a .jpg or .jpeg extension
      (any case) is JPEG for both ... */
  lemma {:induction false} JpegExtensionAgrees(key: string)
    requires '.' in key
    requires ToLower(ExtensionFormat(key)) == "jpg" || ToLower(ExtensionFormat(key)) == "jpeg"
    ensures FormatFromKey(key) == "jpg"
  {
    var e := ToLower(ExtensionFormat(key));
    ExtensionSuffix(key, e);
    DotJpegSuffix(ToLower(key), e);
    JpegSuffix(key);
  }

  /** ... and a .png extension (any case) is PNG for both. */
  lemma {:induction false} PngExtensionAgrees(key: string)
    requires '.' in key
    requires ToLower(ExtensionFormat(key)) == "png"
    ensures FormatFromKey(key) == "png"
  {
    LowerKeyEndsWithExtension(key);
    var k := ToLower(key);
    var n := |k|;
    assert k[n - 4..] == ".png";
    assert k[n - 3] == 'p' && k[n - 2] == 'n';
  }

  /** ChatGPT: `metadata.getContentType() != null ? metadata.getContentType()
      : ("image/" + formatName)`. */
  function ChatGptContentType(sourceType: Option<string>, formatName: string): (ct: string)
    ensures sourceType.Some? ==> ct == sourceType.value
    ensures sourceType.None? ==> ct == "image/" + formatName
  {
    match sourceType
    case Some(t) => t
    case None => "image/" + formatName
  }
}
