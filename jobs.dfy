/** What every handler variant shares: the three transforms, where each
    writes its result, and how the work inside the handler's try block ends. */
module Jobs {

  import opened Wrappers
  import opened Storage

  datatype Transform = Rotate | Grayscale | Resize

  /** `"rotated-"`, `"grayscale-"`, `"resized-"`. */
  function OutputPrefix(t: Transform): (p: string)
    ensures |p| > 0 && p[|p| - 1] == '-'
  {
    match t
    case Rotate => "rotated-"
    case Grayscale => "grayscale-"
    case Resize => "resized-"
  }

  /** Where the result goes: the same bucket, the prefixed key, which is
      never the source key. */
  function OutputLoc(t: Transform, loc: Loc): (out: Loc)
    ensures out.bucket == loc.bucket && out.key == OutputPrefix(t) + loc.key
    ensures out != loc
  {
    Loc(loc.bucket, OutputPrefix(t) + loc.key)
  }

  /** How the work in the try block ends: the output key and the object it
      stored, or the message of an early return or of a caught exception. */
  datatype Step = Done(outKey: string, upload: StoredObject) | Fail(message: string)

  /** The stream or file handles an optional variable holds. */
  function Handles(h: Option<nat>): (s: set<nat>)
    ensures h.None? ==> s == {}
    ensures h.Some? ==> s == {h.value}
  {
    if h.Some? then {h.value} else {}
  }
}
