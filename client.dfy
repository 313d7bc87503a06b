/**
 * `sendRequest`: the request options it builds and the way it turns the
 * response into a returned body or a thrown error. The network exchange
 * itself (`fetch`) is not modelled: the response it produced is an input.
 */
module Client {
  import opened Wrappers
  import opened JsText
  import opened Json

  /** The HTTP methods the script uses. */
  datatype Method = GET | POST | PUT | DELETE {
    /** The method's name as the script spells it. */
    function Name(): string {
      match this
      case GET => "GET"
      case POST => "POST"
      case PUT => "PUT"
      case DELETE => "DELETE"
    }
  }

  const CONTENT_TYPE: string := "Content-Type"
  const JSON_MEDIA_TYPE: string := "application/json"

  /** The `options` object handed to `fetch`; `body` stands for `JSON.stringify(data)`. */
  datatype RequestOptions = RequestOptions(httpMethod: Method, headers: map<string, string>, body: Option<JsObject>)

  /**
   * Builds the request options: the JSON content type is set for every
   * method, and the payload is attached only when one is supplied.
   */
  method BuildOptions(httpMethod: Method, data: Option<JsObject>) returns (options: RequestOptions)
    ensures options.httpMethod == httpMethod
    ensures options.headers.Keys == {CONTENT_TYPE} && options.headers[CONTENT_TYPE] == JSON_MEDIA_TYPE
    ensures options.body.Some? <==> data.Some?
    ensures data.Some? ==> options.body.value == data.value
  {
    options := RequestOptions(httpMethod, map[CONTENT_TYPE := JSON_MEDIA_TYPE], None);
    if data.Some? {
      options := options.(body := Some(data.value));
    }
  }

  /** What `fetch` resolved to; `body` is `None` when `response.json()` threw. */
  datatype Response = Response(ok: bool, status: nat, statusText: string, body: Option<Json>)

  /** What `sendRequest` throws. */
  datatype SendError =
    | HttpError(message: string)  // the `Error` built for a response that is not ok
    | NullBodyTypeError           // reading `.error` of a parsed `null` body threw a TypeError

  /** The text of the placeholder for an unparseable body. */
  function PlaceholderText(httpMethod: Method, response: Response): (t: string)
    ensures t != []
    ensures response.statusText != "" ==> t == response.statusText
  {
    if response.statusText != "" then response.statusText
    else httpMethod.Name() + " successful with status " + NatToString(response.status)
  }

  /** The body `sendRequest` works with: the parsed JSON, or `{message: ...}` when parsing failed. */
  function ResultBody(httpMethod: Method, response: Response): Json {
    match response.body
    case Some(parsed) => parsed
    case None => MessageObject(PlaceholderText(httpMethod, response))
  }

  /** `[<status> <statusText>] `, the head of every HTTP error message. */
  function StatusPrefix(response: Response): string {
    "[" + NatToString(response.status) + " " + response.statusText + "] "
  }

  /** The message of the `Error` thrown for a response that is not ok. */
  function ErrorMessage(response: Response, result: Json): (r: string)
    requires result != JNull
    ensures var prefix := StatusPrefix(response); var error := Prop(result, "error");
      var head := prefix + (if Truthy(error) then Interpolate(error) else "Unknown Error");
      && head <= r
      && (r == head <==> !Truthy(Prop(result, "detail")))
    ensures var detail := Prop(result, "detail"); var tail := " (" + Interpolate(detail) + ")";
      Truthy(detail) ==> |tail| <= |r| && r[|r| - |tail|..] == tail
  {
    var error := Prop(result, "error");
    var detail := Prop(result, "detail");
    StatusPrefix(response)
      + (if Truthy(error) then Interpolate(error) else "Unknown Error")
      + (if Truthy(detail) then " (" + Interpolate(detail) + ")" else "")
  }

  /**
   * What awaiting `sendRequest` gives once `fetch` has produced `response`:
   * the body when the response is ok, a thrown error when it is not.
   */
  function Settle(httpMethod: Method, response: Response): (r: Result<Json, SendError>)
    ensures r.Ok? <==> response.ok
    ensures r.Ok? && response.body.Some? ==> r.value == response.body.value
    ensures r == Err(NullBodyTypeError) <==> !response.ok && response.body == Some(JNull)
    ensures r.Err? && r.error.HttpError? ==> StatusPrefix(response) <= r.error.message
  {
    var result := ResultBody(httpMethod, response);
    if !response.ok then
      if result == JNull then Err(NullBodyTypeError)
      else Err(HttpError(ErrorMessage(response, result)))
    else
      Ok(result)
  }

  /**
   * An ok response whose body does not parse yields `{message: statusText}`,
   * or `{message: "<METHOD> successful with status <status>"}` when the
   * status text is empty; it is never an error.
   */
  lemma UnparseableOkBody(httpMethod: Method, response: Response)
    requires response.ok && response.body.None?
    ensures Settle(httpMethod, response) == Ok(MessageObject(
      if response.statusText != "" then response.statusText
      else httpMethod.Name() + " successful with status " + NatToString(response.status)))
  {
  }

  /** A response that is not ok and whose body does not parse fails with `Unknown Error` and no detail. */
  lemma UnparseableErrorBody(httpMethod: Method, response: Response)
    requires !response.ok && response.body.None?
    ensures Settle(httpMethod, response) == Err(HttpError(StatusPrefix(response) + "Unknown Error"))
  {
    var result := MessageObject(PlaceholderText(httpMethod, response));
    assert Prop(result, "error") == Undefined;
    assert Prop(result, "detail") == Undefined;
    assert ErrorMessage(response, result) == StatusPrefix(response) + "Unknown Error" + "";
    assert StatusPrefix(response) + "Unknown Error" + "" == StatusPrefix(response) + "Unknown Error";
  }

  /** The value of a string field of a JSON object, `""` when absent or not a string. */
  function StringField(fields: map<string, Json>, key: string): string {
    if key in fields && fields[key].JStr? then fields[key].s else ""
  }

  /** True when every present field named `key` holds a string. */
  predicate StringOrAbsent(fields: map<string, Json>, key: string) {
    key in fields ==> fields[key].JStr?
  }

  /**
   * For an error body whose `error` and `detail` are strings or absent, the
   * message is `[<status> <statusText>] ` followed by the server's error (or
   * `Unknown Error` when it is empty or absent) and, only when the detail is
   * non-empty, ` (<detail>)`.
   */
  lemma ServerErrorMessage(httpMethod: Method, response: Response, fields: map<string, Json>)
    requires !response.ok && response.body == Some(JObj(fields))
    requires StringOrAbsent(fields, "error") && StringOrAbsent(fields, "detail")
    ensures Settle(httpMethod, response) == Err(HttpError(
      StatusPrefix(response)
      + (if StringField(fields, "error") != "" then StringField(fields, "error") else "Unknown Error")
      + (if StringField(fields, "detail") != "" then " (" + StringField(fields, "detail") + ")" else "")))
  {
  }

  /** A 404 with body `{"error": "Not found"}` fails with `[404 Not Found] Not found`. */
  lemma NotFoundExample(httpMethod: Method)
    ensures Settle(httpMethod, Response(false, 404, "Not Found", Some(JObj(map["error" := JStr("Not found")]))))
      == Err(HttpError("[404 Not Found] Not found"))
  {
    assert NatToString(404) == "404" by {
      assert NatToString(4) == "4";
      assert NatToString(40) == "40";
    }
    var response := Response(false, 404, "Not Found", Some(JObj(map["error" := JStr("Not found")])));
    assert StatusPrefix(response) == "[404 Not Found] ";
    assert ErrorMessage(response, response.body.value) == "[404 Not Found] " + "Not found" + "";
    assert "[404 Not Found] " + "Not found" + "" == "[404 Not Found] Not found";
  }
}
