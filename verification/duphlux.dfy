/** The phone-number verification client (src/Duphlux.php) together with the
    state and methods it inherits from the abstract request engine
    (src/ApiRequest.php).  Both PHP classes describe one object, so their
    fields and methods are declared on the one class `Duphlux` below; the
    engine's pure rules are in module ApiRequest.

    External collaborators are inputs: the transport's result is a
    `TransportOutcome` parameter, the request handed to the transport is an
    out-parameter, the process-wide credential slots are constructor
    parameters, and `rand` is an arbitrary choice. */
module Duphlux {
  import opened Php
  import opened ApiRequest

  // ---------------------------------------------------------------------
  // Operations and their catalogue

  datatype Operation = InitializeNumberVerification | NumberVerificationStatus

  /** `$config[op]['endpoint']`: every endpoint is an absolute path to a
      `.json` resource. */
  function Endpoint(op: Operation): (e: string)
    ensures |e| > 6 && e[0] == '/' && e[|e| - 5..] == ".json"
  {
    match op
    case InitializeNumberVerification => "/verify.json"
    case NumberVerificationStatus => "/status.json"
  }

  const DataTransactionReferenceKey := "transaction_reference"
  const DataNumberVerificationUrlKey := "verification_url"
  const DataVerificationStatusKey := "verification_status"

  /** `$requiredOptions[op]`: the parameter names each operation demands, in
      the order they are checked.  Every operation needs the transaction
      reference, and the names of one operation are distinct. */
  function RequiredOptions(op: Operation): (names: seq<string>)
    ensures DataTransactionReferenceKey in names
    ensures forall i, j :: 0 <= i < j < |names| ==> names[i] != names[j]
  {
    match op
    case InitializeNumberVerification => ["phone_number", DataTransactionReferenceKey, "redirect_url"]
    case NumberVerificationStatus => [DataTransactionReferenceKey]
  }

  // ---------------------------------------------------------------------
  // Validation of the caller's options

  const RequiredSuffix := " is Required for this operation"
  const TrimArrayMessage := "trim(): Argument #1 ($string) must be of type string, array given"

  /** `empty(trim($v))` for a value that is not an array: `trim` first turns
      null into "", false into "", true into "1" and an integer into its
      decimal digits. */
  predicate BlankAfterTrim(v: Value) {
    match v
    case Null => true
    case Bool(b) => !b
    case Int(i) => i == 0
    case Str(s) => Empty(Str(Trim(s)))
    case Arr(_) => false
  }

  /** `in_array($name, $options_keys)` for one of the client's parameter
      names, which are non-numeric words: an array lists its keys, and
      `(array)` turns null into an empty list and any other value `v` into
      `[v]`, whose one element loosely equals the name when it is that very
      string or `true`. */
  predicate Listed(options: Value, name: string) {
    match options
    case Null => false
    case Bool(b) => b
    case Int(_) => false
    case Str(s) => s == name
    case Arr(es) => name in Keys(es)
  }

  /** The check `validateOptions` makes for one required name: the name must
      be listed and `trim($options[$name])` must not be empty.  Reading a
      string options value at the name throws a TypeError, and so does
      trimming an array; `true` is listed but reads as null, which is
      blank. */
  function CheckOption(options: Value, name: string): (r: Outcome)
    ensures r.Pass? <==> Has(options, name) && !Get(options, name).Arr? && !BlankAfterTrim(Get(options, name))
    ensures r == Fail(TypeError(StringOffsetMessage)) <==> options == Str(name)
    ensures r == Fail(TypeError(TrimArrayMessage)) <==> Has(options, name) && Get(options, name).Arr?
    ensures r.Fail? && r != Fail(TypeError(StringOffsetMessage)) && r != Fail(TypeError(TrimArrayMessage)) ==>
      r == Fail(InvalidArgumentException(name + RequiredSuffix))
  {
    if !Listed(options, name) then Fail(InvalidArgumentException(name + RequiredSuffix))
    else if options.Str? then Fail(TypeError(StringOffsetMessage))
    else if Get(options, name).Arr? then Fail(TypeError(TrimArrayMessage))
    else if BlankAfterTrim(Get(options, name)) then Fail(InvalidArgumentException(name + RequiredSuffix))
    else Pass
  }

  /** The outcome of checking `names` in order: the first failure, if any. */
  function Validate(options: Value, names: seq<string>): Outcome {
    if names == [] then Pass
    else if CheckOption(options, names[0]).Fail? then CheckOption(options, names[0])
    else Validate(options, names[1..])
  }

  /** Validation passes exactly when every name passes, and a failure is the
      failure of the first name that does not pass. */
  lemma {:induction false} ValidateReportsFirstFailure(options: Value, names: seq<string>)
    ensures Validate(options, names).Pass? <==> forall i :: 0 <= i < |names| ==> CheckOption(options, names[i]).Pass?
    ensures Validate(options, names).Fail? ==>
      exists i :: 0 <= i < |names| && Validate(options, names) == CheckOption(options, names[i])
        && forall j :: 0 <= j < i ==> CheckOption(options, names[j]).Pass?
  {
    if names != [] && CheckOption(options, names[0]).Pass? {
      ValidateReportsFirstFailure(options, names[1..]);
      assert forall i :: 1 <= i < |names| ==> names[i] == names[1..][i - 1];
      if Validate(options, names).Fail? {
        var i :| 0 <= i < |names[1..]| && Validate(options, names[1..]) == CheckOption(options, names[1..][i])
          && forall j :: 0 <= j < i ==> CheckOption(options, names[1..][j]).Pass?;
        assert Validate(options, names) == CheckOption(options, names[i + 1]);
      }
    } else if names != [] {
      assert Validate(options, names) == CheckOption(options, names[0]);
    }
  }

  /** Options that are not an array fail at the operation's first required
      name: `(array) $options` lists the value itself, so a string equal to
      the name is found and then read at a non-numeric offset, which throws
      a TypeError; any other value is missing or blank. */
  lemma NonArrayOptionsFail(options: Value, op: Operation)
    requires !options.Arr?
    ensures Validate(options, RequiredOptions(op)) ==
      if options == Str(RequiredOptions(op)[0]) then Fail(TypeError(StringOffsetMessage))
      else Fail(InvalidArgumentException(RequiredOptions(op)[0] + RequiredSuffix))
  {
  }

  /** `validateOptions($options, $operation)`: checks the operation's
      required names in order and throws at the first one that fails. */
  method ValidateOptions(options: Value, op: Operation) returns (r: Outcome)
    ensures r == Validate(options, RequiredOptions(op))
  {
    var names := RequiredOptions(op);
    var i := 0;
    while i < |names|
      invariant 0 <= i <= |names|
      invariant Validate(options, names) == Validate(options, names[i..])
    {
      assert names[i..][1..] == names[i + 1..];
      var check := CheckOption(options, names[i]);
      if check.Fail? {
        return check;
      }
      i := i + 1;
    }
    return Pass;
  }

  /** The options `checkStatus($reference)` builds. */
  function StatusOptions(reference: Value): Value {
    Arr([(DataTransactionReferenceKey, reference)])
  }

  /** A status check passes validation exactly when the reference is a
      scalar that is not blank after trimming; an array reference makes
      `trim` throw. */
  lemma StatusValidation(reference: Value)
    ensures Validate(StatusOptions(reference), RequiredOptions(NumberVerificationStatus)).Pass? <==>
      !reference.Arr? && !BlankAfterTrim(reference)
    ensures reference.Arr? ==>
      Validate(StatusOptions(reference), RequiredOptions(NumberVerificationStatus)) == Fail(TypeError(TrimArrayMessage))
  {
    var es := StatusOptions(reference).entries;
    assert es[1..] == [];
    assert Keys(es) == {DataTransactionReferenceKey};
    assert Get(StatusOptions(reference), DataTransactionReferenceKey) == reference;
    assert RequiredOptions(NumberVerificationStatus)[1..] == [];
  }

  // ---------------------------------------------------------------------
  // The response envelope

  /** The parts of a decoded response: `PayLoad` and its `status`, `errors`
      and `data` entries (null where absent). */
  datatype Envelope = Envelope(payload: Value, status: Value, errors: Value, data: Value)

  /** `$response['PayLoad']`, then its three entries; reading a string at
      one of these non-numeric keys throws a TypeError, so a string body or
      a string `PayLoad` is refused. */
  function Unwrap(response: Value): (r: Result<Envelope>)
    ensures r.Err? <==> response.Str? || Get(response, "PayLoad").Str?
    ensures r.Err? ==> r.exception == TypeError(StringOffsetMessage)
    ensures r.Ok? ==>
      && r.value.payload == Get(response, "PayLoad") && r.value.status == Get(r.value.payload, "status")
      && r.value.errors == Get(r.value.payload, "errors") && r.value.data == Get(r.value.payload, "data")
  {
    if response.Str? then Err(TypeError(StringOffsetMessage))
    else
      var payload := Get(response, "PayLoad");
      if payload.Str? then Err(TypeError(StringOffsetMessage))
      else Ok(Envelope(payload, Get(payload, "status"), Get(payload, "errors"), Get(payload, "data")))
  }

  // ---------------------------------------------------------------------
  // Verification outcomes

  const VerificationStatusVerified := "verified"
  const VerificationStatusFailed := "failed"
  const VerificationStatusPending := "pending"
  const OperationMismatchMessage := "Method cannot be used with the current operation"

  /** A non-empty word of lower-case letters: not numeric, and truthy. */
  predicate IsWord(w: string) {
    w != [] && forall i :: 0 <= i < |w| ==> 'a' <= w[i] <= 'z'
  }

  /** PHP 8's loose `$v == $w` for a word `w`: null compares as "", a boolean
      compares with the truthiness of `w`, an integer or a string is compared
      as a string since `w` is not numeric, and an array never equals a
      string.  So `true` equals every word. */
  function LooseEqualsWord(v: Value, w: string): (r: bool)
    requires IsWord(w)
    ensures r <==> v == Str(w) || v == Bool(true)
  {
    match v
    case Null => false
    case Bool(b) => b
    case Int(_) => false
    case Str(s) => s == w
    case Arr(_) => false
  }

  // ---------------------------------------------------------------------
  // Credentials, headers and the base URL

  const EnvLive := "LIVE"
  const DefaultBaseUrl := "https://duphlux.com/webservice/authe"

  function LowerChar(c: char): char {
    if 'A' <= c <= 'Z' then (c as int - 'A' as int + 'a' as int) as char else c
  }

  /** `strtolower` on ASCII letters. */
  function Lower(s: string): string {
    if s == [] then [] else [LowerChar(s[0])] + Lower(s[1..])
  }

  /** Lowering keeps the length and maps every character on its own. */
  lemma {:induction false} LowerMapsEachChar(s: string)
    ensures |Lower(s)| == |s| && forall i :: 0 <= i < |s| ==> Lower(s)[i] == LowerChar(s[i])
  {
    if s != [] {
      LowerMapsEachChar(s[1..]);
    }
  }

  predicate IsLiveEnvironment(environment: string) {
    Lower(environment) == Lower(EnvLive)
  }

  /** The environment selects the live token exactly when it spells LIVE in
      any mix of cases. */
  lemma LiveEnvironmentIgnoresCase(environment: string)
    ensures IsLiveEnvironment(environment) <==>
      && |environment| == 4
      && environment[0] in "lL" && environment[1] in "iI"
      && environment[2] in "vV" && environment[3] in "eE"
  {
    LowerMapsEachChar(EnvLive);
    LowerMapsEachChar(environment);
    assert Lower(EnvLive) == "live";
    if |environment| == 4 {
      var l := Lower(environment);
      assert l == "live" <==> l[0] == 'l' && l[1] == 'i' && l[2] == 'v' && l[3] == 'e';
    }
  }

  /** The token `setApiToken($token)` installs. */
  function ChooseToken(token: string, environment: string, live: string, test: string): string {
    if Truthy(Str(token)) then token
    else if IsLiveEnvironment(environment) then live
    else test
  }

  /** The three fixed header lines for a token. */
  function AuthHeader(token: string): seq<string> {
    ["token: " + token, "Content-type: application/json", "Cache-Control: no-cache"]
  }

  /** Whether a header list starts with the three fixed lines for `token`. */
  predicate CarriesToken(headers: seq<string>, token: string) {
    |headers| >= 3 && headers[..3] == AuthHeader(token)
  }

  // ---------------------------------------------------------------------
  // Reference generation

  /** The characters a reference is drawn from, in the source's order:
      lower-case letters, digits, upper-case letters. */
  const Lowers := "abcdefghijklmnopqrstuvwxyz"
  const Digits := "0123456789"
  const Uppers := "ABCDEFGHIJKLMNOPQRSTUVWXYZ"
  const Alphabet := Lowers + Digits + Uppers

  predicate IsAlphanumeric(c: char) {
    'a' <= c <= 'z' || '0' <= c <= '9' || 'A' <= c <= 'Z'
  }

  /** The alphabet holds 62 characters, each an ASCII letter or digit. */
  lemma AlphabetIsAlphanumeric()
    ensures |Alphabet| == 62
    ensures forall i :: 0 <= i < |Alphabet| ==> IsAlphanumeric(Alphabet[i])
  {
    assert forall i :: 0 <= i < |Lowers| ==> IsAlphanumeric(Lowers[i]);
    assert forall i :: 0 <= i < |Digits| ==> IsAlphanumeric(Digits[i]);
    assert forall i :: 0 <= i < |Uppers| ==> IsAlphanumeric(Uppers[i]);
  }

  /** `generateRef($length)`: `length` characters, each drawn from the
      alphabet (which character is an arbitrary choice standing for
      `rand`); a negative length gives the empty string. */
  method GenerateRef(length: int) returns (r: string)
    ensures |r| == if length < 0 then 0 else length
    ensures forall i :: 0 <= i < |r| ==> r[i] in Alphabet && IsAlphanumeric(r[i])
  {
    AlphabetIsAlphanumeric();
    r := "";
    var i := 0;
    while i < length
      invariant |r| == if length < 0 then 0 else i
      invariant 0 <= i && (length >= 0 ==> i <= length)
      invariant forall k :: 0 <= k < |r| ==> r[k] in Alphabet
    {
      var pick :| 0 <= pick < |Alphabet|;
      r := r + [Alphabet[pick]];
      i := i + 1;
    }
  }

  // ---------------------------------------------------------------------
  // The client object

  /** What an operation does with `options` before sending when the
      request options were `current`: the validation failure, else the
      outcome of merging the options. */
  function Admit(current: Value, op: Operation, options: Value): Result<Value> {
    var check := Validate(options, RequiredOptions(op));
    if check.Fail? then Err(check.exception) else MergeOptions(current, options)
  }

  /** Options are admitted exactly when they pass validation and the old
      request options are an array; the admitted options then carry every
      required name with the value the caller gave it. */
  lemma AdmitKeepsRequired(current: Value, op: Operation, options: Value)
    ensures Admit(current, op, options).Ok? <==> Validate(options, RequiredOptions(op)).Pass? && current.Arr?
    ensures Admit(current, op, options).Ok? ==>
      forall i :: 0 <= i < |RequiredOptions(op)| ==>
        Has(Admit(current, op, options).value, RequiredOptions(op)[i])
        && Get(Admit(current, op, options).value, RequiredOptions(op)[i]) == Get(options, RequiredOptions(op)[i])
  {
    var names := RequiredOptions(op);
    ValidateReportsFirstFailure(options, names);
    if Validate(options, names).Pass? {
      assert CheckOption(options, names[0]).Pass?;
      assert options.Arr? && options.entries != [];
      if current.Arr? {
        MergeOptionsUnites(current, options);
      }
    }
  }

  /** `checkStatus(reference)` is admitted exactly when the reference is a
      scalar that is not blank after trimming and the old request options
      are an array, and the options it sends carry the reference. */
  lemma StatusAdmission(current: Value, reference: Value)
    ensures Admit(current, NumberVerificationStatus, StatusOptions(reference)).Ok? <==>
      !reference.Arr? && !BlankAfterTrim(reference) && current.Arr?
    ensures Admit(current, NumberVerificationStatus, StatusOptions(reference)).Ok? ==>
      Get(Admit(current, NumberVerificationStatus, StatusOptions(reference)).value, DataTransactionReferenceKey) == reference
  {
    StatusValidation(reference);
    AdmitKeepsRequired(current, NumberVerificationStatus, StatusOptions(reference));
    assert RequiredOptions(NumberVerificationStatus)[0] == DataTransactionReferenceKey;
    var es := StatusOptions(reference).entries;
    assert es[1..] == [];
    assert Get(StatusOptions(reference), DataTransactionReferenceKey) == reference;
  }

  /** The values of the client fields one request changes. */
  datatype Exchange = Exchange(
    operationUrl: string, requestMethod: string, hookCalls: seq<HookPoint>,
    hasError: bool, error: Value, response: Value, payload: Value, status: Value, data: Value)

  /** `setResponse(body)`: the body is stored, status, errors and data are
      taken from its `PayLoad`, and `hasError` is raised by a non-empty error
      or an empty status (it is never lowered).  When unwrapping throws, the
      fields assigned before the failing read keep their new values. */
  function Applied(before: Exchange, body: Value): Exchange {
    match Unwrap(body)
    case Ok(e) =>
      before.(response := body, payload := e.payload, status := e.status, error := e.errors, data := e.data,
              hasError := before.hasError || Truthy(e.errors) || Empty(e.status))
    case Err(_) =>
      before.(response := body, payload := if body.Str? then before.payload else Get(body, "PayLoad"))
  }

  /** The transport branch of `sendRequest`: a failed transfer raises
      `hasError` and stores the error text; otherwise the decoded body is
      applied. */
  function Received(before: Exchange, outcome: TransportOutcome): Exchange {
    if TransportFailed(outcome) then before.(hasError := true, error := Str(outcome.message))
    else Applied(before, ReceivedBody(outcome))
  }

  /** Whether the transport branch throws: only applying a delivered body
      can, when unwrapping it does. */
  function ReceiveOutcome(outcome: TransportOutcome): (r: Outcome)
    ensures r.Fail? <==> !TransportFailed(outcome) && Unwrap(ReceivedBody(outcome)).Err?
    ensures r.Fail? ==> r.exception == TypeError(StringOffsetMessage)
  {
    if TransportFailed(outcome) then Pass
    else match Unwrap(ReceivedBody(outcome))
      case Ok(_) => Pass
      case Err(e) => Fail(e)
  }

  /** The state after `sendRequest` to `url` with `httpMethod`: the URL and
      method are recorded; a non-callable beforeSend hook stops everything
      else; otherwise the beforeSend hook runs, the outcome is received and
      the afterSend hook runs unless receiving threw. */
  function Cycle(before: Exchange, url: string, httpMethod: string, beforeSend: Hook, afterSend: Hook,
                 outcome: TransportOutcome): Exchange
  {
    var prepared := before.(operationUrl := url, requestMethod := httpMethod);
    if beforeSend.NotCallable? then prepared
    else Dispatched(prepared.(hookCalls := prepared.hookCalls + Invocations(beforeSend, BeforeSendPoint)), outcome, afterSend)
  }

  /** The state after the request left: the outcome is received, then the
      afterSend hook runs unless receiving threw. */
  function Dispatched(before: Exchange, outcome: TransportOutcome, afterSend: Hook): Exchange {
    var received := Received(before, outcome);
    if ReceiveOutcome(outcome).Fail? then received
    else received.(hookCalls := received.hookCalls + Invocations(afterSend, AfterSendPoint))
  }

  /** What `sendRequest` throws: the beforeSend hook's exception, otherwise
      the exception of applying the body, otherwise the afterSend hook's,
      otherwise nothing. */
  function CycleOutcome(beforeSend: Hook, afterSend: Hook, outcome: TransportOutcome): (r: Outcome)
    ensures r.Fail? <==> beforeSend.NotCallable? || ReceiveOutcome(outcome).Fail? || afterSend.NotCallable?
    ensures beforeSend.NotCallable? ==> r == Fail(InvalidArgumentException(BeforeSendMessage))
    ensures !beforeSend.NotCallable? && ReceiveOutcome(outcome).Fail? ==> r == Fail(TypeError(StringOffsetMessage))
    ensures !beforeSend.NotCallable? && ReceiveOutcome(outcome).Pass? && afterSend.NotCallable? ==>
      r == Fail(InvalidArgumentException(AfterSendMessage))
  {
    if beforeSend.NotCallable? then HookOutcome(beforeSend, BeforeSendMessage)
    else if ReceiveOutcome(outcome).Fail? then ReceiveOutcome(outcome)
    else HookOutcome(afterSend, AfterSendMessage)
  }

  /** A request never clears the error flag, and it always records its URL
      and method. */
  lemma CycleKeepsErrorAndTarget(before: Exchange, url: string, httpMethod: string, beforeSend: Hook,
                                 afterSend: Hook, outcome: TransportOutcome)
    ensures var after := Cycle(before, url, httpMethod, beforeSend, afterSend, outcome);
      && (before.hasError ==> after.hasError)
      && after.operationUrl == url && after.requestMethod == httpMethod
  {
  }

  /** The hook record grows by the beforeSend and then the afterSend
      invocation, or not at all when the beforeSend hook is not callable;
      afterSend is not reached when applying the body throws. */
  lemma CycleRecordsHooks(before: Exchange, url: string, httpMethod: string, beforeSend: Hook,
                          afterSend: Hook, outcome: TransportOutcome)
    ensures var after := Cycle(before, url, httpMethod, beforeSend, afterSend, outcome);
      && |before.hookCalls| <= |after.hookCalls| <= |before.hookCalls| + 2
      && after.hookCalls[..|before.hookCalls|] == before.hookCalls
      && (beforeSend.NotCallable? ==> after.hookCalls == before.hookCalls)
      && (beforeSend.Callable? ==> after.hookCalls[|before.hookCalls|] == BeforeSendPoint)
      && (AfterSendPoint in after.hookCalls[|before.hookCalls|..] <==>
            !beforeSend.NotCallable? && ReceiveOutcome(outcome).Pass? && afterSend.Callable?)
  {
    var after := Cycle(before, url, httpMethod, beforeSend, afterSend, outcome);
    var added := if beforeSend.NotCallable? then []
                 else if ReceiveOutcome(outcome).Fail? then Invocations(beforeSend, BeforeSendPoint)
                 else Invocations(beforeSend, BeforeSendPoint) + Invocations(afterSend, AfterSendPoint);
    assert after.hookCalls == before.hookCalls + added;
    assert after.hookCalls[|before.hookCalls|..] == added;
  }

  /** A refused request and a failed transfer leave the stored response,
      payload, status and data as they were. */
  lemma FailedCycleKeepsResponse(before: Exchange, url: string, httpMethod: string, beforeSend: Hook,
                                 afterSend: Hook, outcome: TransportOutcome)
    requires beforeSend.NotCallable? || TransportFailed(outcome)
    ensures var after := Cycle(before, url, httpMethod, beforeSend, afterSend, outcome);
      && after.response == before.response && after.payload == before.payload
      && after.status == before.status && after.data == before.data
      && (beforeSend.NotCallable? ==> after.hasError == before.hasError && after.error == before.error)
      && (!beforeSend.NotCallable? ==> after.hasError && after.error == Str(outcome.message))
  {
  }

  /** A delivered body becomes the response.  When it unwraps, status,
      errors and data are its `PayLoad` entries and the error flag is raised
      exactly when it was already raised, the errors are non-empty or the
      status is empty; when unwrapping throws, only the payload read before
      the failing read changes and the flag, status, error and data keep
      their values. */
  lemma DeliveredCycleStoresBody(before: Exchange, url: string, httpMethod: string, beforeSend: Hook,
                                 afterSend: Hook, outcome: TransportOutcome)
    requires !beforeSend.NotCallable? && !TransportFailed(outcome)
    ensures var after := Cycle(before, url, httpMethod, beforeSend, afterSend, outcome);
      var body := ReceivedBody(outcome);
      var payload := Get(body, "PayLoad");
      && after.response == body
      && (!body.Str? && !payload.Str? ==>
            && after.payload == payload
            && after.status == Get(payload, "status") && after.error == Get(payload, "errors")
            && after.data == Get(payload, "data")
            && (after.hasError <==> before.hasError || Truthy(Get(payload, "errors")) || Empty(Get(payload, "status"))))
      && (body.Str? || payload.Str? ==>
            && after.payload == (if body.Str? then before.payload else payload)
            && after.status == before.status && after.error == before.error
            && after.data == before.data && after.hasError == before.hasError)
  {
  }

  class Duphlux {
    // State declared by the abstract request engine (src/ApiRequest.php).
    var baseUrl: string
    /** `$verify_peer`; the client initialises it to `false`. */
    var verifyPeerSetting: Value
    var beforeSend: Hook
    var afterSend: Hook
    var operationUrl: string
    /** The last operation started on this client; `None` before the first. */
    var operation: Option<Operation>
    var hasError: bool
    var error: Value
    var status: Value
    var response: Value
    var data: Value
    var requestMethod: string
    var requestOptions: Value
    /** The hook invocations made so far, in order. */
    var hookCalls: seq<HookPoint>

    // State declared by the verification client (src/Duphlux.php).
    var payload: Value
    var environment: string
    var apiToken: string
    var authHeader: seq<string>
    var header: seq<string>
    /** The process-wide live and test credential slots. */
    const liveAccessToken: string
    const testAccessToken: string

    /** The base URL is set and the header always starts with the three
        fixed lines for the current token. */
    ghost predicate Valid()
      reads this`baseUrl, this`apiToken, this`authHeader, this`header
    {
      && baseUrl != ""
      && authHeader == AuthHeader(apiToken)
      && CarriesToken(header, apiToken)
    }

    constructor (accessToken: string, environment: string, liveAccessToken: string, testAccessToken: string)
      ensures Valid()
      ensures baseUrl == DefaultBaseUrl && this.environment == environment
      ensures this.liveAccessToken == liveAccessToken && this.testAccessToken == testAccessToken
      ensures apiToken == ChooseToken(accessToken, environment, liveAccessToken, testAccessToken)
      ensures header == AuthHeader(apiToken)
      ensures Snapshot() == Exchange("", MethodGet, [], false, Null, Null, Null, Null, Null)
      ensures operation == None && requestOptions == Arr([])
      ensures verifyPeerSetting == Bool(false) && beforeSend == Unset && afterSend == Unset
    {
      this.liveAccessToken := liveAccessToken;
      this.testAccessToken := testAccessToken;
      baseUrl := "";
      verifyPeerSetting := Bool(false);
      beforeSend, afterSend := Unset, Unset;
      operationUrl := "";
      operation := None;
      hasError := false;
      error, status, response, data, payload := Null, Null, Null, Null, Null;
      requestMethod := MethodGet;
      requestOptions := Arr([]);
      hookCalls := [];
      this.environment := EnvLive;
      apiToken := "";
      authHeader, header := [], [];
      new;
      Configure(accessToken, environment);
    }

    /** The body of `__construct`: the default base URL, then the
        environment, then the token and with it the header. */
    method Configure(accessToken: string, environment: string)
      modifies this`baseUrl, this`environment, this`apiToken, this`authHeader, this`header
      ensures Valid()
      ensures baseUrl == (if Truthy(Str(old(baseUrl))) then old(baseUrl) else DefaultBaseUrl)
      ensures this.environment == environment
      ensures apiToken == ChooseToken(accessToken, environment, liveAccessToken, testAccessToken)
      ensures header == AuthHeader(apiToken)
    {
      SetBaseUrl("");
      SetEnvironment(environment);
      SetApiToken(accessToken);
    }

    // -- setters of the request engine -----------------------------------

    method SetStatus(s: Value)
      modifies this`status
      ensures status == s
    {
      status := s;
    }

    /** Stores the error; a non-empty error raises `hasError`, an empty one
        leaves it as it was. */
    method SetError(e: Value)
      modifies this`error, this`hasError
      ensures error == e
      ensures hasError == (old(hasError) || Truthy(e))
    {
      error := e;
      if Truthy(e) {
        hasError := true;
      }
    }

    method SetData(d: Value)
      modifies this`data
      ensures data == d
    {
      data := d;
    }

    method SetOperation(op: Operation)
      modifies this`operation
      ensures operation == Some(op)
    {
      operation := Some(op);
    }

    /** The request URL is the base URL followed by the operation's endpoint. */
    method SetOperationUrl(op: Operation)
      modifies this`operationUrl
      ensures operationUrl == baseUrl + Endpoint(op)
      ensures |operationUrl| == |baseUrl| + |Endpoint(op)| && operationUrl[..|baseUrl|] == baseUrl
    {
      operationUrl := baseUrl + Endpoint(op);
    }

    method SetRequestMethod(httpMethod: string)
      modifies this`requestMethod
      ensures requestMethod == httpMethod
    {
      requestMethod := httpMethod;
    }

    /** `setRequestOptions($options)`: the options become
        `MergeOptions(old options, options)`; when PHP's `+` throws they are
        left as they were. */
    method SetRequestOptions(options: Value) returns (r: Outcome)
      modifies this`requestOptions
      ensures MergeOptions(old(requestOptions), options).Ok? ==>
        r == Pass && requestOptions == MergeOptions(old(requestOptions), options).value
      ensures MergeOptions(old(requestOptions), options).Err? ==>
        r == Fail(MergeOptions(old(requestOptions), options).exception) && requestOptions == old(requestOptions)
    {
      var merged := MergeOptions(requestOptions, options);
      if merged.Err? {
        return Fail(merged.exception);
      }
      requestOptions := merged.value;
      return Pass;
    }

    // -- reads ---------------------------------------------------------------

    /** `verifyPeer()`: peers are verified unless `$verify_peer` is
        strictly `false`. */
    function VerifyPeer(): (r: bool)
      reads this`verifyPeerSetting
      ensures r <==> verifyPeerSetting != Bool(false)
    {
      PeerVerification(verifyPeerSetting)
    }

    /** `getData($key)`: the keyed read of the stored data. */
    function GetData(key: Option<string>): (r: Result<Value>)
      reads this`data
      ensures r == KeyedRead(data, key)
      ensures key.None? ==> r == Ok(data)
    {
      KeyedRead(data, key)
    }

    /** `getResponse($key)`: the keyed read of the stored response. */
    function GetResponse(key: Option<string>): (r: Result<Value>)
      reads this`response
      ensures r == KeyedRead(response, key)
      ensures key.None? ==> r == Ok(response)
    {
      KeyedRead(response, key)
    }

    // -- hooks -----------------------------------------------------------------

    /** Runs the beforeSend hook (with this client as its argument). */
    method BeforeSend() returns (r: Outcome)
      requires Valid()
      modifies this`hookCalls
      ensures Valid()
      ensures r == HookOutcome(beforeSend, BeforeSendMessage)
      ensures hookCalls == old(hookCalls) + Invocations(beforeSend, BeforeSendPoint)
      ensures Snapshot() == old(Snapshot()).(hookCalls := old(hookCalls) + Invocations(beforeSend, BeforeSendPoint))
    {
      var run := RunHook(beforeSend, BeforeSendMessage);
      if run.Err? {
        return Fail(run.exception);
      }
      if run.value {
        hookCalls := hookCalls + [BeforeSendPoint];
      }
      return Pass;
    }

    /** Runs the afterSend hook (with this client as its argument). */
    method AfterSend() returns (r: Outcome)
      modifies this`hookCalls
      ensures r == HookOutcome(afterSend, AfterSendMessage)
      ensures hookCalls == old(hookCalls) + Invocations(afterSend, AfterSendPoint)
    {
      var run := RunHook(afterSend, AfterSendMessage);
      if run.Err? {
        return Fail(run.exception);
      }
      if run.value {
        hookCalls := hookCalls + [AfterSendPoint];
      }
      return Pass;
    }

    // -- the response ------------------------------------------------------------

    /** `setResponse($body)` of the verification client; it throws when the
        body or its `PayLoad` is a string. */
    method SetResponse(body: Value) returns (r: Outcome)
      modifies this`response, this`payload, this`status, this`error, this`data, this`hasError
      ensures Snapshot() == Applied(old(Snapshot()), body)
      ensures r.Fail? <==> Unwrap(body).Err?
      ensures r.Fail? ==> r.exception == TypeError(StringOffsetMessage)
      ensures r.Pass? && Empty(status) ==> hasError
    {
      response := body;
      if response.Str? {
        return Fail(TypeError(StringOffsetMessage));
      }
      payload := Get(response, "PayLoad");
      if payload.Str? {
        return Fail(TypeError(StringOffsetMessage));
      }
      SetStatus(Get(payload, "status"));
      SetError(Get(payload, "errors"));
      SetData(Get(payload, "data"));
      if Empty(status) {
        hasError := true;
      }
      return Pass;
    }

    // -- sending -------------------------------------------------------------------

    /** The fields a request changes, as one value. */
    function Snapshot(): Exchange
      reads this`operationUrl, this`requestMethod, this`hookCalls, this`hasError, this`error
      reads this`response, this`payload, this`status, this`data
    {
      Exchange(operationUrl, requestMethod, hookCalls, hasError, error, response, payload, status, data)
    }

    /** The part of `sendRequest` that handles the transport's outcome. */
    method Receive(outcome: TransportOutcome) returns (r: Outcome)
      modifies this`response, this`payload, this`status, this`error, this`data, this`hasError
      ensures Snapshot() == Received(old(Snapshot()), outcome)
      ensures r == ReceiveOutcome(outcome)
    {
      if TransportFailed(outcome) {
        hasError := true;
        error := Str(outcome.message);
        r := Pass;
      } else {
        r := SetResponse(ReceivedBody(outcome));
      }
    }

    /** The first steps of `sendRequest`: the URL and the method are recorded. */
    method Prepare(op: Operation, httpMethod: string)
      requires Valid()
      modifies this`operationUrl, this`requestMethod
      ensures Valid()
      ensures operationUrl == baseUrl + Endpoint(op) && requestMethod == httpMethod
      ensures Snapshot() == old(Snapshot()).(operationUrl := baseUrl + Endpoint(op), requestMethod := httpMethod)
    {
      SetOperationUrl(op);
      SetRequestMethod(httpMethod);
    }

    /** The steps of `sendRequest` once the beforeSend hook let the request
        through: the request leaves with the current URL, headers, peer
        setting and the shape the method calls for, its outcome is
        received, and the afterSend hook runs unless receiving threw. */
    method Dispatch(outcome: TransportOutcome) returns (sent: Request, r: Outcome)
      requires Valid()
      modifies this`hookCalls, this`hasError, this`error
      modifies this`response, this`payload, this`status, this`data
      ensures Valid()
      ensures sent == Request(operationUrl, header, VerifyPeer(), ShapeFor(requestMethod, requestOptions))
      ensures CarriesToken(sent.headers, apiToken)
      ensures Snapshot() == Dispatched(old(Snapshot()), outcome, afterSend)
      ensures r == if ReceiveOutcome(outcome).Fail? then ReceiveOutcome(outcome) else HookOutcome(afterSend, AfterSendMessage)
    {
      sent := Request(operationUrl, header, VerifyPeer(), ShapeFor(requestMethod, requestOptions));
      r := Receive(outcome);
      if r.Fail? {
        return;
      }
      r := AfterSend();
    }

    /** `sendRequest($operation, $method)`; returns the request handed to
        the transport (none when the beforeSend hook throws), whether the
        call threw, and the stored response it returns.  Every request
        starts with the three fixed header lines for the current token. */
    method SendRequest(op: Operation, httpMethod: string, outcome: TransportOutcome)
      returns (sent: Option<Request>, r: Outcome, returned: Value)
      requires Valid()
      modifies this`operationUrl, this`requestMethod, this`hookCalls, this`hasError, this`error
      modifies this`response, this`payload, this`status, this`data
      ensures Valid()
      ensures Snapshot() == Cycle(old(Snapshot()), baseUrl + Endpoint(op), httpMethod, beforeSend, afterSend, outcome)
      ensures beforeSend.NotCallable? ==> sent == None
      ensures !beforeSend.NotCallable? ==>
        sent == Some(Request(operationUrl, header, VerifyPeer(), ShapeFor(requestMethod, requestOptions)))
      ensures sent.Some? ==> CarriesToken(sent.value.headers, apiToken)
      ensures r == CycleOutcome(beforeSend, afterSend, outcome)
      ensures returned == response
    {
      Prepare(op, httpMethod);
      var before := BeforeSend();
      if before.Fail? {
        return None, before, response;
      }
      var request;
      request, r := Dispatch(outcome);
      sent := Some(request);
      returned := response;
    }

    // -- the verification workflow ----------------------------------------------

    /** Starting `op` with `options` from the state `before` with the options
        `oldOptions`: the operation is recorded first; a validation failure
        or a failing merge of the options throws with nothing sent and
        nothing else changed; otherwise the merged options are stored and
        one POST request cycle runs. */
    predicate OperationCall(before: Exchange, oldOptions: Value, op: Operation, options: Value,
                            outcome: TransportOutcome, sent: Option<Request>, r: Outcome)
      reads this`operation, this`requestOptions, this`baseUrl, this`beforeSend, this`afterSend
      reads this`header, this`verifyPeerSetting
      reads this`operationUrl, this`requestMethod, this`hookCalls, this`hasError, this`error
      reads this`response, this`payload, this`status, this`data
    {
      var admitted := Admit(oldOptions, op, options);
      && operation == Some(op)
      && if admitted.Err? then
           r == Fail(admitted.exception) && sent == None && requestOptions == oldOptions && Snapshot() == before
         else
           && requestOptions == admitted.value
           && Snapshot() == Cycle(before, baseUrl + Endpoint(op), MethodPost, beforeSend, afterSend, outcome)
           && sent == (if beforeSend.NotCallable? then None
                       else Some(Request(operationUrl, header, VerifyPeer(), ShapeFor(requestMethod, requestOptions))))
           && r == CycleOutcome(beforeSend, afterSend, outcome)
    }

    /** The steps every operation takes before its request: the operation
        is recorded, the options are validated and then merged into the
        request options. */
    method Start(op: Operation, options: Value) returns (r: Outcome)
      requires Valid()
      modifies this`operation, this`requestOptions
      ensures Valid()
      ensures operation == Some(op)
      ensures Admit(old(requestOptions), op, options).Err? ==>
        r == Fail(Admit(old(requestOptions), op, options).exception) && requestOptions == old(requestOptions)
      ensures Admit(old(requestOptions), op, options).Ok? ==>
        r == Pass && requestOptions == Admit(old(requestOptions), op, options).value
    {
      SetOperation(op);
      r := ValidateOptions(options, op);
      if r.Fail? {
        return;
      }
      r := SetRequestOptions(options);
    }

    /** What `authenticate` and `checkStatus` share: the operation is
        started with `options` and, once they are admitted, its request is
        sent by POST. */
    method Perform(op: Operation, options: Value, outcome: TransportOutcome) returns (sent: Option<Request>, r: Outcome)
      requires Valid()
      modifies this`operation, this`requestOptions
      modifies this`operationUrl, this`requestMethod, this`hookCalls, this`hasError, this`error
      modifies this`response, this`payload, this`status, this`data
      ensures OperationCall(old(Snapshot()), old(requestOptions), op, options, outcome, sent, r)
      ensures Valid()
      ensures sent.Some? ==> CarriesToken(sent.value.headers, apiToken)
    {
      r := Start(op, options);
      assert Snapshot() == old(Snapshot());
      if r.Fail? {
        return None, r;
      }
      var returned;
      sent, r, returned := SendRequest(op, MethodPost, outcome);
    }

    /** `authenticate($options)`: starts a verification. */
    method Authenticate(options: Value, outcome: TransportOutcome) returns (sent: Option<Request>, r: Outcome)
      requires Valid()
      modifies this`operation, this`requestOptions
      modifies this`operationUrl, this`requestMethod, this`hookCalls, this`hasError, this`error
      modifies this`response, this`payload, this`status, this`data
      ensures OperationCall(old(Snapshot()), old(requestOptions), InitializeNumberVerification, options, outcome, sent, r)
      ensures Valid()
      ensures sent.Some? ==> CarriesToken(sent.value.headers, apiToken)
    {
      sent, r := Perform(InitializeNumberVerification, options, outcome);
    }

    /** `checkStatus($reference)`: asks for the outcome of a verification;
        the options are the one entry `transaction_reference`. */
    method CheckStatus(reference: Value, outcome: TransportOutcome) returns (sent: Option<Request>, r: Outcome)
      requires Valid()
      modifies this`operation, this`requestOptions
      modifies this`operationUrl, this`requestMethod, this`hookCalls, this`hasError, this`error
      modifies this`response, this`payload, this`status, this`data
      ensures OperationCall(old(Snapshot()), old(requestOptions), NumberVerificationStatus, StatusOptions(reference), outcome, sent, r)
      ensures Valid()
      ensures sent.Some? ==> CarriesToken(sent.value.headers, apiToken)
    {
      sent, r := Perform(NumberVerificationStatus, StatusOptions(reference), outcome);
    }

    // -- the operation guard and the outcome queries ----------------------------

    /** `checkOperation($operation)`: passes only when `op` is the last
        operation started. */
    function CheckOperation(op: Operation): (r: Outcome)
      reads this`operation
      ensures r.Pass? <==> operation == Some(op)
      ensures r.Fail? ==> r.exception == GenericException(OperationMismatchMessage)
    {
      if operation != Some(op) then Fail(GenericException(OperationMismatchMessage)) else Pass
    }

    /** The stored verification status, `getData('verification_status')`. */
    function VerificationStatus(): Result<Value>
      reads this`data
    {
      GetData(Some(DataVerificationStatusKey))
    }

    /** `isVerified()`: after a status check, whether the stored status loosely
        equals "verified". */
    function IsVerified(): (r: Result<bool>)
      reads this`operation, this`data
      ensures r.Err? <==> operation != Some(NumberVerificationStatus) || data.Str?
      ensures r.Err? ==> r.exception == if operation != Some(NumberVerificationStatus)
        then GenericException(OperationMismatchMessage) else TypeError(StringOffsetMessage)
      ensures r.Ok? ==> (r.value <==> Get(data, DataVerificationStatusKey) in {Str("verified"), Bool(true)})
    {
      var guard := CheckOperation(NumberVerificationStatus);
      if guard.Fail? then Err(guard.exception)
      else
        var stored := VerificationStatus();
        if stored.Err? then Err(stored.exception)
        else Ok(LooseEqualsWord(stored.value, VerificationStatusVerified))
    }

    /** `isPending()`: after a status check, whether the stored status loosely
        equals "pending". */
    function IsPending(): (r: Result<bool>)
      reads this`operation, this`data
      ensures r.Err? <==> operation != Some(NumberVerificationStatus) || data.Str?
      ensures r.Err? ==> r.exception == if operation != Some(NumberVerificationStatus)
        then GenericException(OperationMismatchMessage) else TypeError(StringOffsetMessage)
      ensures r.Ok? ==> (r.value <==> Get(data, DataVerificationStatusKey) in {Str("pending"), Bool(true)})
    {
      var guard := CheckOperation(NumberVerificationStatus);
      if guard.Fail? then Err(guard.exception)
      else
        var stored := VerificationStatus();
        if stored.Err? then Err(stored.exception)
        else Ok(LooseEqualsWord(stored.value, VerificationStatusPending))
    }

    /** `isFailed()`: after a status check, whether the stored status loosely
        equals "failed". */
    function IsFailed(): (r: Result<bool>)
      reads this`operation, this`data
      ensures r.Err? <==> operation != Some(NumberVerificationStatus) || data.Str?
      ensures r.Err? ==> r.exception == if operation != Some(NumberVerificationStatus)
        then GenericException(OperationMismatchMessage) else TypeError(StringOffsetMessage)
      ensures r.Ok? ==> (r.value <==> Get(data, DataVerificationStatusKey) in {Str("failed"), Bool(true)})
    {
      var guard := CheckOperation(NumberVerificationStatus);
      if guard.Fail? then Err(guard.exception)
      else
        var stored := VerificationStatus();
        if stored.Err? then Err(stored.exception)
        else Ok(LooseEqualsWord(stored.value, VerificationStatusFailed))
    }

    /** `redirect()`: after an initialization, the verification URL to send
        the browser to when the data holds a truthy one (the redirect itself
        is left to the caller); string data cannot be read at the URL key. */
    function Redirect(): (r: Result<Option<Value>>)
      reads this`operation, this`data
      ensures r.Err? <==> operation != Some(InitializeNumberVerification) || data.Str?
      ensures r.Err? ==> r.exception == if operation != Some(InitializeNumberVerification)
        then GenericException(OperationMismatchMessage) else TypeError(StringOffsetMessage)
      ensures r.Ok? ==> (r.value.Some? <==> Truthy(Get(data, DataNumberVerificationUrlKey)))
      ensures r.Ok? && r.value.Some? ==> r.value.value == Get(data, DataNumberVerificationUrlKey)
    {
      var guard := CheckOperation(InitializeNumberVerification);
      if guard.Fail? then Err(guard.exception)
      else if data.Str? then Err(TypeError(StringOffsetMessage))
      else
        var url := Get(data, DataNumberVerificationUrlKey);
        Ok(if Truthy(url) then Some(url) else None)
    }

    // -- configuration -----------------------------------------------------------

    method SetEnvironment(environment: string)
      modifies this`environment
      ensures this.environment == environment
    {
      this.environment := environment;
    }

    /** `setApiToken($token)`: a non-empty token is used as given, otherwise
        the environment picks the live or the test credential; the header is
        rebuilt for the new token. */
    method SetApiToken(token: string)
      modifies this`apiToken, this`authHeader, this`header
      ensures apiToken == ChooseToken(token, environment, liveAccessToken, testAccessToken)
      ensures Truthy(Str(token)) ==> apiToken == token
      ensures !Truthy(Str(token)) && IsLiveEnvironment(environment) ==> apiToken == liveAccessToken
      ensures !Truthy(Str(token)) && !IsLiveEnvironment(environment) ==> apiToken == testAccessToken
      ensures authHeader == AuthHeader(apiToken) && header == AuthHeader(apiToken)
    {
      if Truthy(Str(token)) {
        apiToken := token;
      } else if Lower(environment) == Lower(EnvLive) {
        apiToken := liveAccessToken;
      } else {
        apiToken := testAccessToken;
      }
      SetHeader([]);
    }

    /** `setHeader($headers)`: the three fixed lines for the current token,
        followed by the caller's headers in order. */
    method SetHeader(extra: seq<string>)
      modifies this`authHeader, this`header
      ensures authHeader == ["token: " + apiToken, "Content-type: application/json", "Cache-Control: no-cache"]
      ensures header == authHeader + extra
      ensures old(Valid()) ==> Valid()
    {
      authHeader := AuthHeader(apiToken);
      header := authHeader + extra;
      assert header[..3] == authHeader;
    }

    /** `setBaseUrl($url)`; the empty string stands for null (`"" == null`
        in PHP).  No URL keeps a non-empty base URL and otherwise installs
        the default; a URL is installed as given. */
    method SetBaseUrl(url: string)
      modifies this`baseUrl
      ensures url == "" && Truthy(Str(old(baseUrl))) ==> baseUrl == old(baseUrl)
      ensures url == "" && !Truthy(Str(old(baseUrl))) ==> baseUrl == DefaultBaseUrl
      ensures url != "" ==> baseUrl == url
      ensures baseUrl != ""
    {
      if url == "" {
        if !Truthy(Str(baseUrl)) {
          baseUrl := DefaultBaseUrl;
        }
      } else {
        baseUrl := url;
      }
    }
  }

  /** Neither operation ever clears the error flag, and an admitted one
      always records its URL and the POST method. */
  lemma OperationCallKeepsError(c: Duphlux, before: Exchange, oldOptions: Value, op: Operation, options: Value,
                                outcome: TransportOutcome, sent: Option<Request>, r: Outcome)
    requires c.OperationCall(before, oldOptions, op, options, outcome, sent, r)
    ensures before.hasError ==> c.hasError
    ensures Admit(oldOptions, op, options).Ok? ==>
      c.operationUrl == c.baseUrl + Endpoint(op) && c.requestMethod == MethodPost
  {
    if Admit(oldOptions, op, options).Ok? {
      CycleKeepsErrorAndTarget(before, c.baseUrl + Endpoint(op), MethodPost, c.beforeSend, c.afterSend, outcome);
    }
  }

  /** With any stored status other than `true`, at most one of the three
      outcome queries answers yes. */
  lemma OutcomeQueriesExclusive(c: Duphlux)
    requires c.operation == Some(NumberVerificationStatus)
    requires c.VerificationStatus() != Ok(Bool(true))
    ensures !(c.IsVerified() == Ok(true) && c.IsPending() == Ok(true))
    ensures !(c.IsVerified() == Ok(true) && c.IsFailed() == Ok(true))
    ensures !(c.IsPending() == Ok(true) && c.IsFailed() == Ok(true))
  {
  }

  /** A stored status of `true` makes all three outcome queries answer yes. */
  lemma TrueStatusAnswersEverything(c: Duphlux)
    requires c.operation == Some(NumberVerificationStatus)
    requires c.VerificationStatus() == Ok(Bool(true))
    ensures c.IsVerified() == Ok(true) && c.IsPending() == Ok(true) && c.IsFailed() == Ok(true)
  {
  }
}
