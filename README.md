# CRUD user form client — a Dafny model

`script.js` binds four HTML forms and a button to a user-management REST
endpoint (`GET/POST /api/users`, `GET/PUT/DELETE /api/users/{id}`). Around
the browser glue sit three decision rules, and this project models them as
plain functions and methods:

- **`sendRequest`** (module `Client`, `client.dfy`). It builds the request
  options: the JSON content type is always set, and a body is attached only
  when a payload is given. It then turns the response into either a returned
  body or a thrown error. An ok response returns its parsed body. When the body
  does not parse, a `{message: ...}` placeholder stands in, and that is never an
  error by itself. A response that is not ok always throws
  `[<status> <statusText>] <error or "Unknown Error">[ (<detail>)]`, except
  when the parsed body is `null` (see below).
- **The submit handlers** (module `Forms`, `forms.dfy`). Each handler either
  rejects the form with a message and sends nothing, or sends one request
  (`Action`). GET-one, PUT and DELETE reject a blank trimmed id with their own
  message. Otherwise they address `BASE_URL + "/" + id`; the id is not escaped.
  POST and PUT build a payload object of trimmed fields. They then delete its
  blank entries by walking `Object.keys` (`DeleteDropped`, a loop over the key
  sequence that reassigns a map). PUT rejects a form with no field left. The
  "list all" button is `GetAllAction`, a bare GET of the collection.
- **`displayResult`** (module `Notify`, `notify.dfy`). It is the decision table
  that picks the notification text and its success/error status.

Supporting modules:
- `JsText` holds JavaScript's `trim` (its exact whitespace set) and the
  decimal text of numbers.
- `Json` holds parsed JSON values, property reads, truthiness and
  template-literal conversion.
- `Wrappers` holds `Option` and `Result`.

The model keeps these details of what the code does:
- The content-type header is set for every method, not only when a payload is
  present.
- `error` and `detail` are used when they are *truthy*. An empty string, `0` or
  `false` counts as absent, and non-string values are inserted in their
  template-literal text.
- Success is `response.ok`, which the model takes as an input. It is not
  recomputed from the status.
- A response that is not ok and whose body is the JSON literal `null` does not
  produce the bracketed message. Reading `.error` of `null` throws a TypeError
  (`NullBodyTypeError`). In the same way, `displayResult` throws for a `null`
  result whenever it reads a property (`Throws`).

## Model

| member | source | states |
|---|---|---|
| JsText.SkipForward | script.js:125 | the index where `trim`'s leading scan stops: everything skipped is whitespace and the character it stops at is not |
| JsText.SkipBackward | script.js:125 | the index where `trim`'s trailing scan stops: everything skipped is whitespace and the character before it is not |
| JsText.TrimIsInnerSlice | script.js:151 | a trimmed field is the slice of the input between leading and trailing whitespace, with no whitespace at either edge |
| JsText.BlankIffAllWhitespace | script.js:151-153 | a field is rejected as blank (`!value.trim()`) exactly when every character of it is whitespace |
| JsText.Trim | script.js:125-128 | `String.prototype.trim` as applied to every form field: the result is no longer than the input and neither starts nor ends with whitespace |
| JsText.NatToString | script.js:47 | the status in a template literal is a non-empty string of decimal digits with no leading zero |
| JsText.ParseNatToString | script.js:53 | the decimal text of a status reads back as the same number |
| JsText.IntToString | script.js:89 | a JSON integer's text starts with `-` exactly when it is negative, and the rest is a non-empty run of decimal digits that reads back as the integer's absolute value |
| Json.Prop | script.js:51-52 | reading a key of a non-null value gives the object's field when it has one and `undefined` otherwise |
| Json.Truthy | script.js:51-52 | a value is truthy (`x || y`, `x ? y : z`) exactly when it is not one of `undefined`, `null`, `false`, `0`, `""` |
| Json.Text | script.js:84-93 | the template-literal text of a JSON value: a string is inserted verbatim, an integer as its decimal form, an empty array as `""`, any object as `[object Object]` |
| Json.Interpolate | script.js:51-53 | `${v}` inserts `undefined` for an absent property and a string value verbatim |
| Client.ErrorMessage | script.js:51-53 | the thrown message starts with `[<status> <statusText>] ` and the server's error (or `Unknown Error` when it is falsy); it is exactly that when the detail is falsy, and otherwise ends with ` (<detail>)` |
| Client.BuildOptions | script.js:27-36 | the options carry the method, exactly the header `Content-Type: application/json`, and a body exactly when a payload is given, equal to it |
| Client.PlaceholderText | script.js:47 | the placeholder text is never empty and is the status text whenever that is non-empty |
| Client.Settle | script.js:38-57 | the call succeeds exactly when the response is ok; an ok parsed body is returned unchanged; it throws the TypeError exactly for a non-ok `null` body; every HTTP error message starts with `[<status> <statusText>] ` |
| Client.UnparseableOkBody | script.js:43-48 | an ok response with an unparseable body returns `{message: statusText}`, or `{message: "<METHOD> successful with status <status>"}` when the status text is empty |
| Client.UnparseableErrorBody | script.js:45-53 | a non-ok response with an unparseable body fails with exactly `[<status> <statusText>] Unknown Error` |
| Client.ServerErrorMessage | script.js:50-53 | for string `error`/`detail` fields the message is the prefix, the error or `Unknown Error` when it is empty or absent, and ` (<detail>)` only when the detail is non-empty |
| Client.NotFoundExample | script.js:50-53 | a 404 with body `{"error": "Not found"}` fails with `[404 Not Found] Not found` |
| Forms.GetAllAction | script.js:102-107 | the list button is never rejected and sends a GET without a payload to the collection URL, which names no user |
| Forms.UrlNamesId | script.js:158 | the id is recovered unchanged from the resource URL built for it |
| Forms.GetOneAction | script.js:151-158 | GET-one is rejected with its message exactly when the id field is all whitespace; otherwise it is a GET with no payload of the URL naming the trimmed id |
| Forms.DeleteAction | script.js:217-224 | DELETE is rejected with its message exactly when the id field is all whitespace; otherwise it is a DELETE with no payload of the URL naming the trimmed id |
| Forms.DeleteDropped | script.js:132 | deleting the dropped entries while walking the object's keys leaves exactly the entries the filter keeps |
| Forms.PostDataPruned | script.js:124-132 | the pruned POST object has exactly the non-empty fields among id, name, email and role, each with its value |
| Forms.PostPayloadShape | script.js:124-132 | the POST payload has exactly the fields that are non-blank after trimming, each holding its trimmed value, and no other key |
| Forms.SubmitPost | script.js:118-137 | the create handler never rejects and sends the pruned payload to the collection URL with POST |
| Forms.PutDataPruned | script.js:185-192 | the pruned PUT object has exactly the non-empty fields among name, email and role, each with its value, and never an id |
| Forms.PutPayloadShape | script.js:185-192 | the PUT payload has exactly the non-blank trimmed fields among name, email and role, and never the id |
| Forms.SubmitPut | script.js:177-203 | a blank id is rejected first; then a form with all three fields blank is rejected with the "at least one field" message; otherwise it sends PUT to the URL of the trimmed id with the pruned payload, and it sends exactly in that case |
| Notify.DisplayResult | script.js:72-94 | nothing is shown without the element; the status is error exactly when `isError`; the message follows the table: `<METHOD> FAILED: <message>`, `User ID: <id> created successfully!`, `Found <n> users.` for an array in the list element, `User ID: <deleted> deleted successfully.`, else `<METHOD> Successful.`; it throws exactly when it reads a property of `null` |
| Notify.FailureReported | script.js:82-85 | a rejection or thrown error, displayed as `{message: text}`, shows `<METHOD> FAILED: text` as an error |
| Notify.HttpFailureReported | script.js:82-85 | an HTTP failure of `sendRequest` is shown as `<METHOD> FAILED: [<status> <statusText>] ...` |
| Notify.DeleteExample | script.js:92-93 | a successful DELETE answered with `{"deleted": 42}` shows `User ID: 42 deleted successfully.` |

## Left out

- `fetch` and the network exchange are left out because they are a foreign call. The response is an input (`Client.Response`), with the parsed body as an `Option` (`None` when `response.json()` throws).
- Transport failures of `fetch` are left out because they are only propagated. So are the catch-and-rethrow of `sendRequest` (script.js:59-62), which passes errors through unchanged, and the promise machinery.
- DOM access is left out because it is page glue. This covers element lookups, reading form values (fields are string parameters), the `<pre>` text and colour writes, the message box class and `setTimeout` (script.js:10-17), and the clearing of the id inputs after a DELETE (script.js:231-233). `elementFound` stands for the element lookup of `displayResult`.
- `console.error` logging is left out because it changes nothing the user sees.
- `JSON.stringify` is left out because it is library code. This covers the request body (the payload map stands for its serialisation) and the pretty-printed result (script.js:76). JSON parsing is reduced to its parsed-or-failed outcome.
- Non-integer JSON numbers and their text are left out. JSON numbers are integers here.
- JsText.IntToString: gives the plain decimal form of every integer, because JSON numbers are modelled as unbounded integers. JavaScript parses them as doubles, so it prints integers of 1e21 or more in exponent form (`1e+21`) and rounds integers above 2^53; the model does not capture either.
- Key order and duplicate keys of JSON objects are left out. Objects are maps.
- Json.Prop: models the reads of `error`, `detail`, `message`, `id` and `deleted` only. For other keys it does not capture inherited properties or `length` of strings.
- The progress and echo notifications each handler shows before its request are left out: `Loading...`, `GET <url>`, `Sending DELETE request to <url>`, and the payload itself (script.js:104, 134, 159, 200, 225). So is the order of those calls. Each is one more call of `displayResult`, covered by `Notify.DisplayResult`.
- When `displayResult` throws inside a handler's `try`, the handler displays the TypeError's message as an error. That second display is left out, because the message text belongs to the JavaScript engine.
- Overlapping requests from repeated clicks are left out. They are concurrency, and the code does not handle them.
