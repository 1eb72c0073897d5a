/** The pure rules of the generic request engine (the abstract class in
    src/ApiRequest.php): how new request options merge into old ones, what
    request each HTTP method produces, when a lifecycle hook runs or throws,
    and when peer certificates are verified.  The state these rules act on
    lives in the concrete client class (module Duphlux). */
module ApiRequest {
  import opened Php

  const MethodGet := "GET"
  const MethodPost := "POST"
  const MethodPut := "PUT"
  const MethodDelete := "DELETE"

  // ---------------------------------------------------------------------
  // Request options

  /** The new value of the request options after `setRequestOptions(options)`
      when they were `current`.  A PHP-empty argument changes nothing, an
      array is united with the old array (its keys win), anything else
      replaces the options; uniting an array with a non-array throws. */
  function MergeOptions(current: Value, options: Value): (r: Result<Value>)
    ensures Empty(options) ==> r == Ok(current)
    ensures !Empty(options) && !options.Arr? ==> r == Ok(options)
    ensures r.Err? <==> !Empty(options) && options.Arr? && !current.Arr?
    ensures r.Err? ==> r.exception == TypeError("Unsupported operand types: array + " + TypeName(current))
  {
    if Empty(options) then Ok(current)
    else if !options.Arr? then Ok(options)
    else if !current.Arr? then Err(TypeError("Unsupported operand types: array + " + TypeName(current)))
    else Ok(Arr(Union(options.entries, current.entries)))
  }

  /** Merging a non-empty array into an array unites them: the result has
      the keys of both, a key of the new options reads its new value and
      any other key keeps its old value; distinct keys stay distinct. */
  lemma MergeOptionsUnites(current: Value, options: Value)
    requires !Empty(options) && options.Arr? && current.Arr?
    ensures MergeOptions(current, options).Ok? && MergeOptions(current, options).value.Arr?
    ensures var merged := MergeOptions(current, options).value;
      && Keys(merged.entries) == Keys(options.entries) + Keys(current.entries)
      && (forall k :: Get(merged, k) == if Has(options, k) then Get(options, k) else Get(current, k))
      && (UniqueKeys(options.entries) && UniqueKeys(current.entries) ==> UniqueKeys(merged.entries))
  {
    UnionFacts(options.entries, current.entries);
  }

  // ---------------------------------------------------------------------
  // Request shape

  /** The method-specific transfer settings: GET explicitly turns POST off,
      POST sends the JSON encoding of the options, PUT and DELETE send the
      raw options under a custom verb, and any other method sets nothing. */
  datatype Shape =
    | PlainGet
    | JsonPost(json: Value)
    | CustomRequest(verb: string, fields: Value)
    | NoMethodSettings

  /** Everything handed to the transport for one request. */
  datatype Request = Request(url: string, headers: seq<string>, verifyPeer: bool, shape: Shape)

  function ShapeFor(httpMethod: string, options: Value): (r: Shape)
    ensures r == PlainGet <==> httpMethod == MethodGet
    ensures r == JsonPost(options) <==> httpMethod == MethodPost
    ensures r == CustomRequest(httpMethod, options) <==> httpMethod == MethodPut || httpMethod == MethodDelete
    ensures r == NoMethodSettings <==> httpMethod !in {MethodGet, MethodPost, MethodPut, MethodDelete}
  {
    if httpMethod == MethodGet then PlainGet
    else if httpMethod == MethodPost then JsonPost(options)
    else if httpMethod == MethodPut then CustomRequest(MethodPut, options)
    else if httpMethod == MethodDelete then CustomRequest(MethodDelete, options)
    else NoMethodSettings
  }

  /** The request body a shape carries, if any. */
  function BodyOf(s: Shape): Option<Value> {
    match s
    case PlainGet => None
    case JsonPost(json) => Some(json)
    case CustomRequest(_, fields) => Some(fields)
    case NoMethodSettings => None
  }

  /** Only POST, PUT and DELETE carry a body, and it is always the request
      options (JSON-encoded for POST, raw for the other two). */
  lemma BodyCarriesOptions(httpMethod: string, options: Value)
    ensures BodyOf(ShapeFor(httpMethod, options)).Some? <==> httpMethod in {MethodPost, MethodPut, MethodDelete}
    ensures BodyOf(ShapeFor(httpMethod, options)).Some? ==> BodyOf(ShapeFor(httpMethod, options)).value == options
  {
  }

  // ---------------------------------------------------------------------
  // Peer verification

  /** `verifyPeer()`: peers are verified unless the setting is exactly `false`. */
  function PeerVerification(setting: Value): (r: bool)
    ensures !r <==> setting == Bool(false)
  {
    !(setting == Bool(false))
  }

  // ---------------------------------------------------------------------
  // Lifecycle hooks

  /** A hook slot: unset (any PHP-empty value), set to something that is not
      callable, or set to a callable. */
  datatype Hook = Unset | NotCallable | Callable(name: string)

  datatype HookPoint = BeforeSendPoint | AfterSendPoint

  const BeforeSendMessage := "beforeSend property must be a callback"
  /** The source reuses the beforeSend wording for the afterSend hook. */
  const AfterSendMessage := "beforeSend property must be a callback"

  /** Running a hook: `Ok(true)` when it is invoked, `Ok(false)` when the slot
      is unset, an InvalidArgumentException when it is set but not callable. */
  function RunHook(h: Hook, message: string): (r: Result<bool>)
    ensures r.Err? <==> h.NotCallable?
    ensures r.Err? ==> r.exception == InvalidArgumentException(message)
    ensures r.Ok? ==> (r.value <==> h.Callable?)
  {
    match h
    case Unset => Ok(false)
    case NotCallable => Err(InvalidArgumentException(message))
    case Callable(_) => Ok(true)
  }

  /** What running a hook leaves to the caller: nothing, or the exception
      it throws. */
  function HookOutcome(h: Hook, message: string): (r: Outcome)
    ensures r.Fail? <==> RunHook(h, message).Err?
    ensures r.Fail? ==> r.exception == RunHook(h, message).exception
  {
    if h.NotCallable? then Fail(InvalidArgumentException(message)) else Pass
  }

  /** The invocations a run of `h` at `point` adds to the call record. */
  function Invocations(h: Hook, point: HookPoint): (r: seq<HookPoint>)
    ensures |r| <= 1 && (forall p :: p in r ==> p == point)
    ensures r != [] <==> h.Callable?
  {
    if h.Callable? then [point] else []
  }

  // ---------------------------------------------------------------------
  // Reads

  /** `$key ? $v[$key] : $v`: a truthy key reads one entry (null when it is
      absent, a TypeError on a string at a non-numeric offset), any other
      key (absent, "" or "0") reads the whole value. */
  function KeyedRead(v: Value, key: Option<string>): (r: Result<Value>)
    ensures key.None? || Empty(Str(key.value)) ==> r == Ok(v)
    ensures key.Some? && !Empty(Str(key.value)) && Has(v, key.value) ==> r.Ok? && (key.value, r.value) in v.entries
    ensures key.Some? && !Empty(Str(key.value)) && !v.Str? && !Has(v, key.value) ==> r == Ok(Null)
    ensures r.Err? <==> key.Some? && !Empty(Str(key.value)) && v.Str? && !IsDigits(key.value)
    ensures r.Err? ==> r.exception == TypeError(StringOffsetMessage)
    ensures key.Some? && !Empty(Str(key.value)) ==> r == Index(v, key.value)
  {
    if key.Some? && Truthy(Str(key.value)) then
      LookupFinds(if v.Arr? then v.entries else [], key.value);
      Index(v, key.value)
    else Ok(v)
  }

  // ---------------------------------------------------------------------
  // Transport

  /** What the transport reports for one request: `TransportError` with
      curl's error text, or `Delivered` with the JSON-decoded body. */
  datatype TransportOutcome = TransportError(message: string) | Delivered(decoded: Value)

  /** The engine treats the request as failed only when the error text is
      truthy. */
  predicate TransportFailed(t: TransportOutcome) {
    t.TransportError? && Truthy(Str(t.message))
  }

  /** The decoded body the engine hands on when the request did not fail; a
      failed transfer decodes to null. */
  function ReceivedBody(t: TransportOutcome): Value {
    if t.Delivered? then t.decoded else Null
  }
}
