# Duphlux phone-verification client, modelled in Dafny

Duphlux is a PHP client for a phone-number verification web service. It is
built from two classes. `ApiRequest` is an abstract request engine. It holds
the request state, merges request options, runs the `beforeSend` and
`afterSend` hooks, sends one HTTP request and stores the outcome. `Duphlux`
is the concrete verification client. It holds the operation catalogue
(endpoint and required parameters per operation) and validates the caller's
options. It unwraps the `PayLoad` envelope of a response and selects the API
token and headers. It guards the outcome queries (`isVerified`, `isPending`,
`isFailed`, `redirect`) by the last operation started, and it generates
random references.

The model has three modules.

- `Php` (php.dfy) holds the PHP semantics the client relies on:
  - a small `Value` universe (null, booleans, integers, strings, and arrays as ordered lists of string-keyed entries);
  - `empty()`;
  - array lookup, string offsets and the array union operator `+`;
  - `trim()`.
  
  Comparisons follow PHP 8.
- `ApiRequest` (api_request.dfy) holds the engine's pure rules:
  - option merging;
  - the request shape each HTTP method produces;
  - the hook gate;
  - peer verification;
  - keyed reads.
- `Duphlux` (duphlux.dfy) holds the catalogue, validation, the response envelope, token and header rules, reference generation, and the class `Duphlux`.
  - The class carries the changing state of both PHP classes, since they describe one object. The operation catalogue (`$config`, `$requiredOptions`) is the module functions `Endpoint` and `RequiredOptions`, and `$defaultBaseUrl` is the constant `DefaultBaseUrl`. `$message` and the static `$reference` have no field (see "Left out").
  - Each PHP method that changes fields is a Dafny method with a `modifies` clause on exactly those fields.
  - Read-only checks are functions with `reads` clauses.

The transport is an input. `SendRequest` receives a `TransportOutcome`:
either `TransportError(message)` (curl's error text) or `Delivered(decoded)`
(the JSON-decoded body). It returns the `Request` it hands to the transport.
The request holds the URL, the headers, the peer-verification flag and the
method-specific shape. The fields one request changes are gathered in an
`Exchange` value (`Snapshot()`). Every sending method states its new state as
a pure function of the old snapshot:

- `Applied` is the response unwrapping;
- `Received` is the transport branch;
- `Dispatched` covers receipt and the `afterSend` hook;
- `Cycle` is all of `sendRequest`.

Lemmas about those functions state what a request does to the error flag,
the stored response and the hook record.

Reading a string at a non-numeric key throws a `TypeError` in PHP 8, and
the model carries that exception wherever the code reads one:

- a delivered body that is a string, or whose `PayLoad` is a string, makes
  `setResponse` throw; `sendRequest` then stops before the `afterSend` hook;
- `getData` and `getResponse` throw for a truthy non-numeric key on string
  data, and so do the outcome queries and `redirect`;
- options passed as the string of the operation's first required name pass
  `in_array` and then throw when validation reads them; any other string
  fails `in_array` at the first name with the "is Required" exception.

Behaviour worth knowing:

- `verifyPeer()` answers yes unless `$verify_peer` is strictly `false`
  (src/ApiRequest.php:59-62), and the client initialises `$verify_peer` to
  `false` (src/Duphlux.php:53). So peers are not verified unless the caller
  changes the setting.
- The error flag is never lowered. A response raises it when its errors are
  non-empty or its status is empty, and it keeps an earlier `true`. So
  `hasError` is not "errors non-empty or status falsy" of the last response
  alone.
- On a transport error the fields `response`, `status` and `data` keep their
  previous values, as does `payload`.
- The outcome queries compare loosely (`==`). A stored status of boolean
  `true` equals every one of the three words, so all three queries then
  answer yes (`TrueStatusAnswersEverything`). With any other status, at most
  one answers yes (`OutcomeQueriesExclusive`).
- The `afterSend` hook's exception reuses the text
  "beforeSend property must be a callback".
- A non-empty array passed to `setRequestOptions` while the old options are
  not an array makes PHP 8's `+` throw a `TypeError`. A required option whose
  value is an array makes `trim` throw a `TypeError` during validation.
- Request options are merged with `+` and never reset. A `checkStatus` on a
  client that already ran `authenticate` sends `transaction_reference`
  together with the earlier `phone_number` and `redirect_url`; the new
  `transaction_reference` replaces the earlier one (src/ApiRequest.php:244).

## Model

| member | source | states |
|---|---|---|
| `Php.UnionFacts` | src/ApiRequest.php:244 | `$a + $b` has the keys of both arrays; a key of `a` reads its value in `a`, any other key its value in `b`; it starts with `a` unchanged and keeps keys distinct |
| `Php.LookupFinds` | src/ApiRequest.php:288 | `$v[$key]` finds the entry stored under a present key (the only one when keys are distinct) and null under an absent key |
| `Php.Empty` | src/ApiRequest.php:241 | `empty()` holds for exactly six values: null, `false`, `0`, `""`, `"0"` and the empty array |
| `Php.Index` | src/Duphlux.php:232 | `$v[$key]` reads an array's entry (null when absent) and null on null, booleans and integers; on a string it throws a TypeError exactly for a key that is not a run of digits, and otherwise yields the character at that decimal offset, or "" past the end |
| `Php.Trim` | src/Duphlux.php:114 | `trim` gives the characters of `s` that follow its leading stripped run, in order, with only stripped characters after them; neither end of the result is a stripped character, and the result is empty exactly when every character is stripped |
| `ApiRequest.MergeOptions` | src/ApiRequest.php:239-250 | an empty argument keeps the options, a non-empty non-array replaces them, and uniting an array with non-array options throws a TypeError (and only then) |
| `ApiRequest.MergeOptionsUnites` | src/ApiRequest.php:243-244 | merging an array into an array yields the union of their keys; a new key reads its new value and every other old key keeps its old value; distinct keys stay distinct |
| `ApiRequest.ShapeFor` | src/ApiRequest.php:313-332 | GET gets the plain GET setting, POST the JSON of the options, PUT and DELETE their own custom verb with the raw options, and any other method no setting, each if and only if |
| `ApiRequest.BodyCarriesOptions` | src/ApiRequest.php:318-331 | exactly POST, PUT and DELETE carry a body, and that body is the request options |
| `ApiRequest.PeerVerification` | src/ApiRequest.php:59-62 | peers are verified exactly when the setting is not strictly `false` |
| `ApiRequest.RunHook` | src/ApiRequest.php:155-165 | an unset hook does nothing, a set non-callable hook throws InvalidArgumentException, a callable hook is invoked |
| `ApiRequest.HookOutcome` | src/ApiRequest.php:138-148 | a hook call throws exactly when the hook gate refuses, with the gate's exception |
| `ApiRequest.Invocations` | src/ApiRequest.php:141-147 | running a hook adds at most one invocation, at its own point, and adds one exactly when the hook is callable |
| `ApiRequest.KeyedRead` | src/ApiRequest.php:286-289 | an absent, `""` or `"0"` key returns the whole value; any other key reads the entry stored under it (null when absent, and null on null, booleans and integers); on a string it throws a TypeError exactly when the key is not a run of digits and otherwise reads the character at that offset (`Php.Index`) |
| `Duphlux.Endpoint` | src/Duphlux.php:85-92 | every operation's endpoint is an absolute path to a `.json` resource |
| `Duphlux.RequiredOptions` | src/Duphlux.php:97-100 | every operation requires `transaction_reference`, and no operation lists a name twice |
| `Duphlux.CheckOption` | src/Duphlux.php:112-117 | one name passes exactly when it is a key whose value is a non-array that is not blank after trimming; options that are the name's own string throw a TypeError when read, and so does an array value when trimmed; any other failure is "<name> is Required for this operation" |
| `Duphlux.ValidateReportsFirstFailure` | src/Duphlux.php:108-119 | validation passes exactly when every required name passes, and a failure is the failure of the first name that does not pass |
| `Duphlux.ValidateOptions` | src/Duphlux.php:108-119 | the loop over the required names returns the validation outcome: the first failure, or success |
| `Duphlux.NonArrayOptionsFail` | src/Duphlux.php:110-116 | options that are not an array fail at the operation's first required name: a TypeError when they are that name's string, else "<name> is Required for this operation" |
| `Duphlux.StatusValidation` | src/Duphlux.php:284-287 | a status check passes validation exactly when the reference is a scalar not blank after trimming; an array reference throws a TypeError |
| `Duphlux.AdmitKeepsRequired` | src/Duphlux.php:252-254 | options are admitted exactly when they validate and the old options are an array, and the admitted options carry every required name with the caller's value |
| `Duphlux.StatusAdmission` | src/Duphlux.php:285-288 | `checkStatus` is admitted exactly for a non-blank scalar reference over array options, and the options then carry `transaction_reference = reference` |
| `Duphlux.LooseEqualsWord` | src/Duphlux.php:302 | loose `== "word"` holds exactly for the string itself and for boolean `true` |
| `Duphlux.LowerMapsEachChar` | src/Duphlux.php:171 | `strtolower` keeps the length and lowers each character on its own |
| `Duphlux.LiveEnvironmentIgnoresCase` | src/Duphlux.php:171 | the environment selects the live token exactly when it spells LIVE in any mix of cases |
| `Duphlux.AlphabetIsAlphanumeric` | src/Duphlux.php:349-350 | the reference alphabet has 62 characters, each an ASCII letter or digit |
| `Duphlux.GenerateRef` | src/Duphlux.php:347-359 | the reference has exactly `length` characters (none for a negative length), each from the alphabet and alphanumeric |
| `Duphlux.Unwrap` | src/Duphlux.php:232-236 | a response unwraps into its `PayLoad` and that payload's `status`, `errors` and `data`; it throws a TypeError exactly when the response or its `PayLoad` is a string |
| `Duphlux.ReceiveOutcome` | src/ApiRequest.php:334-342 | the transport branch throws exactly when the transfer did not fail and the delivered body cannot be unwrapped, and then with a TypeError |
| `Duphlux.CycleOutcome` | src/ApiRequest.php:311-346 | `sendRequest` throws exactly when beforeSend is set but not callable, or the body cannot be unwrapped, or afterSend is set but not callable, and the first of these in that order supplies the exception |
| `Duphlux.CycleKeepsErrorAndTarget` | src/ApiRequest.php:297-351 | a request never clears the error flag and always records its URL and method |
| `Duphlux.CycleRecordsHooks` | src/ApiRequest.php:311-346 | the hook record only grows, by at most two: nothing when beforeSend refuses; otherwise beforeSend first when callable, then afterSend exactly when the body was applied without throwing and afterSend is callable |
| `Duphlux.FailedCycleKeepsResponse` | src/ApiRequest.php:336-340 | a refused request or a transport error leaves response, payload, status and data unchanged; a transport error raises the flag and stores its text |
| `Duphlux.DeliveredCycleStoresBody` | src/Duphlux.php:228-242 | a delivered body becomes the response; when it unwraps, its `PayLoad` entries become status, error and data, and the flag is raised exactly when it was raised, errors are non-empty or status is empty; a string body or string `PayLoad` changes only the payload read before the throw |
| `Duphlux.OperationCallKeepsError` | src/Duphlux.php:249-292 | `authenticate` and `checkStatus` never clear the error flag, and an admitted one records the endpoint URL and POST |
| `Duphlux.OutcomeQueriesExclusive` | src/Duphlux.php:299-325 | after a status check, with any stored status but `true`, at most one of `isVerified`, `isPending` and `isFailed` answers yes |
| `Duphlux.TrueStatusAnswersEverything` | src/Duphlux.php:299-325 | a stored status of boolean `true` makes all three queries answer yes |
| `Duphlux.Duphlux.constructor` | src/Duphlux.php:78-83 | a new client has the default base URL, the given environment, the token `setApiToken` selects and its header, no operation, empty options, no error and peer verification off |
| `Duphlux.Duphlux.Configure` | src/Duphlux.php:80-82 | the constructor's three calls: the default base URL unless one is set, the environment, then the token and its header |
| `Duphlux.Duphlux.SetStatus` | src/ApiRequest.php:80-83 | the status is stored |
| `Duphlux.Duphlux.SetError` | src/ApiRequest.php:98-104 | the error is stored; a non-empty error raises the flag, an empty one keeps it |
| `Duphlux.Duphlux.SetData` | src/ApiRequest.php:276-279 | the data is stored |
| `Duphlux.Duphlux.SetOperation` | src/ApiRequest.php:211-214 | the operation is recorded |
| `Duphlux.Duphlux.SetOperationUrl` | src/ApiRequest.php:201-204 | the URL is the base URL followed by the operation's endpoint |
| `Duphlux.Duphlux.SetRequestMethod` | src/ApiRequest.php:172-175 | the method is recorded |
| `Duphlux.Duphlux.SetRequestOptions` | src/ApiRequest.php:239-250 | the options become the merge of the old options and the argument, or stay as they were when the merge throws |
| `Duphlux.Duphlux.VerifyPeer` | src/ApiRequest.php:59-62 | peers are verified exactly when `$verify_peer` is not strictly `false` |
| `Duphlux.Duphlux.GetResponse` | src/ApiRequest.php:266-269 | `getResponse($key)` is the keyed read of the stored response, and the whole response without a key |
| `Duphlux.Duphlux.GetData` | src/ApiRequest.php:286-289 | `getData($key)` is the keyed read of the stored data, and the whole data without a key |
| `Duphlux.Duphlux.BeforeSend` | src/ApiRequest.php:155-165 | the beforeSend gate's outcome, and one recorded invocation exactly when the hook is callable |
| `Duphlux.Duphlux.AfterSend` | src/ApiRequest.php:138-148 | the afterSend gate's outcome, and one recorded invocation exactly when the hook is callable |
| `Duphlux.Duphlux.SetResponse` | src/Duphlux.php:228-242 | the new state is the body applied to the old one; it throws a TypeError exactly when the body or its `PayLoad` is a string, and a completed call with an empty status leaves the flag raised |
| `Duphlux.Duphlux.Receive` | src/ApiRequest.php:334-342 | a transport error raises the flag and stores its text; otherwise the decoded body is applied; it throws exactly when applying the body throws |
| `Duphlux.Duphlux.Prepare` | src/ApiRequest.php:300-301 | the URL and the method are recorded |
| `Duphlux.Duphlux.Dispatch` | src/ApiRequest.php:303-346 | the request leaves with the current URL, headers (starting with the token lines), peer flag and method shape; the outcome is received, and afterSend runs only when receiving did not throw |
| `Duphlux.Duphlux.SendRequest` | src/ApiRequest.php:297-351 | the new state is one request cycle; nothing is sent when beforeSend refuses; the request otherwise carries the recorded URL, header (starting with the token lines), peer flag and shape; it throws as `CycleOutcome` dictates, returns the stored response and keeps the client valid |
| `Duphlux.Duphlux.Start` | src/Duphlux.php:251-254 | the operation is recorded first; options that fail validation or merging throw and leave the options unchanged; otherwise they are merged |
| `Duphlux.Duphlux.Perform` | src/Duphlux.php:251-255 | the shared body of both operations: recorded operation, admission or its exception, then one POST cycle; the client stays valid and a sent request starts with the token lines |
| `Duphlux.Duphlux.Authenticate` | src/Duphlux.php:249-258 | the operation is recorded; a rejected call throws with nothing sent and nothing else changed; otherwise the merged options are stored and one POST cycle to `/verify.json` runs, whose request starts with the token lines; the client stays valid |
| `Duphlux.Duphlux.CheckStatus` | src/Duphlux.php:282-292 | as for `authenticate`, with the options `{transaction_reference: reference}` and a POST to `/status.json` |
| `Duphlux.Duphlux.CheckOperation` | src/Duphlux.php:333-341 | passes exactly when the operation is the last one started, else throws "Method cannot be used with the current operation" |
| `Duphlux.Duphlux.IsVerified` | src/Duphlux.php:299-303 | throws unless the last operation was a status check, and throws a TypeError on string data; otherwise yes exactly when the stored status is "verified" or `true` |
| `Duphlux.Duphlux.IsPending` | src/Duphlux.php:310-314 | throws unless the last operation was a status check, and throws a TypeError on string data; otherwise yes exactly when the stored status is "pending" or `true` |
| `Duphlux.Duphlux.IsFailed` | src/Duphlux.php:321-325 | throws unless the last operation was a status check, and throws a TypeError on string data; otherwise yes exactly when the stored status is "failed" or `true` |
| `Duphlux.Duphlux.Redirect` | src/Duphlux.php:264-274 | throws unless the last operation was an initialization, and throws a TypeError on string data; otherwise yields the verification URL exactly when it is truthy |
| `Duphlux.Duphlux.SetEnvironment` | src/Duphlux.php:141-144 | the environment is stored |
| `Duphlux.Duphlux.SetApiToken` | src/Duphlux.php:167-177 | a non-empty token is used as given, else the live token for a LIVE environment (any case), else the test token; the header is rebuilt |
| `Duphlux.Duphlux.SetHeader` | src/Duphlux.php:183-187 | the header is the three fixed lines for the current token followed by the extra headers in order |
| `Duphlux.Duphlux.SetBaseUrl` | src/Duphlux.php:202-213 | with no URL, a non-empty base URL is kept and an empty one becomes the default; a URL is installed as given; the base URL is never empty afterwards |

## Left out

- curl is not modelled. The transport's result is the `TransportOutcome` parameter, and the request handed to it is the `Request` out-parameter of `SendRequest`.
- `json_encode` is not modelled: a POST request carries the options value rather than its JSON text.
- `json_decode` is not modelled: `Delivered` carries the already-decoded body. A body that does not decode arrives as `Delivered(Null)`.
- `redirect` does not call `header("Location: …")` or `exit()`. `Redirect` returns the URL the browser would be sent to.
- `rand` is an arbitrary choice of index in `GenerateRef`. Its distribution is not modelled.
- What a hook callable does is not modelled: only that it was invoked, in order, is recorded in `hookCalls`. Its argument (the client itself) and any exception it raises are left out, and so is any change it makes to the client.
- The process-wide static credential slots are constructor parameters, held in constant fields. Later changes to the statics are not seen.
- The plain getters are left out. These are `getConfig`, `getStatus`, `getError`, `getRequestMethod`, `getOperation`, `getOperationUrl`, `getRequestOptions`, `getEnvironment`, `getApiToken`, `getHeader` and `getBaseUrl`; each returns a field of the class as it stands.
- `setMessage`/`getMessage` and the `$message` field (src/ApiRequest.php:36) are left out: no core path sets the message.
- The private static `$reference` (src/Duphlux.php:69) has no field: no code reads or writes it.
- The optional `$message` argument of `checkOperation` is left out, because no caller passes one.
- An undefined operation id has no catalogue entry in the source. The model's `Operation` type has only the two operations, so that case is not represented.
- Floats, objects and integer array keys are not part of `Value`. `setApiToken`, `setBaseUrl` and `setHeader` take strings only.
- PHP 7's loose comparisons are not modelled. `0 == "verified"` is true there and false in PHP 8.
- `Duphlux.Duphlux.SetBaseUrl` takes a string in which `""` stands for `null`. Other arguments PHP compares equal to null (`false`, `0`, `[]`) are not modelled.
- `ApiRequest.KeyedRead` reads a string at an offset only for a key made of decimal digits. Keys PHP also reads as offsets are not modelled: a signed key such as `"-1"` (counted from the end), a key with leading or trailing whitespace such as `" 1"` or `"1 "`, and a leading-numeric key such as `"1x"` (read with a warning). The model treats all of these as non-numeric and throws.
- `Php.Index` reads a string as a sequence of characters, while PHP's string offsets count bytes: a multi-byte character such as `"é"` is one position in the model and two in PHP.
- `Php.Index` reads any run of digits as an offset. PHP reads one as an integer offset only when it fits in a PHP integer; longer runs are not modelled.
- `Php.Index` gives null when it reads null, a boolean or an integer, as PHP does. The warning PHP emits there is not modelled.
- The TypeError messages follow one PHP 8 release. Their wording differs between PHP 8 releases, so only the exception class is meant to be exact.
- `Duphlux.Listed` assumes the parameter names are non-numeric words, which all of the client's names are. A numeric name would compare loosely with numbers under `in_array`.
- `Duphlux.LowerMapsEachChar` lowers ASCII letters only, as `strtolower` does from PHP 8.2 on. Locale-dependent lowering in earlier PHP versions is not modelled.
- `Duphlux.AlphabetIsAlphanumeric` states that every alphabet character is a letter or digit. It does not state the converse: that every letter and digit occurs.
- `Duphlux.GenerateRef` does not state which character is drawn, since that is `rand`'s choice.
- `setHeader`'s `array_merge` is modelled for a list of header strings only. Extra headers with string keys are not modelled.
- Default arguments are not modelled as such; every Dafny method takes each argument explicitly. The defaults are `$environment = ENV_LIVE` of the constructor (src/Duphlux.php:78), `$length = 10` of `generateRef` (src/Duphlux.php:347) and `$headers = array()` of `setHeader` (src/Duphlux.php:183). The constructor called with a LIVE environment, `GenerateRef(10)` and `SetHeader([])` are the calls that use them.
