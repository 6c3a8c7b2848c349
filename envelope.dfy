/** The request and response maps the Lambda handlers exchange with the
    Lambda runtime, and the envelope rules shared by every variant. */
module Envelope {

  import opened Wrappers

  /** A JSON value as the Lambda runtime hands it over: a string, any other value
      (kept as the text its toString() gives) or an explicit null. */
  datatype Value = Str(s: string) | Other(text: string) | Null

  type Response = map<string, Value>

  /** What a handler invocation ends with: a returned map, or an exception
      that escapes handleRequest and reaches the Lambda runtime. */
  datatype Invocation = Returned(response: Response) | Raised(exception: string)

  const OutputKey: string := "outputKey"
  const ErrorKey: string := "error"

  /** A metrics snapshot never uses the two envelope keys. */
  predicate IsMetrics(m: Response) {
    OutputKey !in m && ErrorKey !in m
  }

  /** Exactly one of outputKey / error is present. */
  predicate ExactlyOneOutcome(r: Response) {
    (OutputKey in r) != (ErrorKey in r)
  }

  /** Every metrics entry is present in r, unchanged. */
  predicate CarriesMetrics(r: Response, metrics: Response) {
    forall k :: k in metrics ==> k in r && r[k] == metrics[k]
  }

  /** `input.get(name)`: the value, or None when absent or JSON null. */
  function Field(input: map<string, Value>, name: string): (v: Option<Value>)
    ensures v.Some? <==> name in input && input[name] != Null
    ensures v.Some? ==> v.value == input[name]
  {
    if name in input && input[name] != Null then Some(input[name]) else None
  }

  /** `String.valueOf(o)` / `o.toString()` for a non-null value. */
  function Text(v: Value): string
    requires v != Null
  {
    match v
    case Str(s) => s
    case Other(t) => t
  }

  /** Success map: the metrics snapshot with `outputKey` added. */
  function WithOutputKey(metrics: Response, outKey: string): (r: Response)
    requires IsMetrics(metrics)
    ensures ExactlyOneOutcome(r) && OutputKey in r && r[OutputKey] == Str(outKey)
    ensures r.Keys == metrics.Keys + {OutputKey} && CarriesMetrics(r, metrics)
  {
    metrics[OutputKey := Str(outKey)]
  }

  /** Failure map: the metrics snapshot with `error` added. */
  function WithError(metrics: Response, message: string): (r: Response)
    requires IsMetrics(metrics)
    ensures ExactlyOneOutcome(r) && ErrorKey in r && r[ErrorKey] == Str(message)
    ensures r.Keys == metrics.Keys + {ErrorKey} && CarriesMetrics(r, metrics)
  {
    metrics[ErrorKey := Str(message)]
  }

  /** A map holding nothing but the `error` entry. */
  function ErrorOnly(message: string): (r: Response)
    ensures ExactlyOneOutcome(r) && r.Keys == {ErrorKey} && r[ErrorKey] == Str(message)
  {
    map[ErrorKey := Str(message)]
  }
}
