/**
 * The submit handlers of the four forms and the "list all" button, reduced to
 * what they decide: reject the input with a message and send nothing, or send
 * one request with a URL, a method and possibly a payload. Form fields are the
 * raw strings read from the inputs; every handler trims them first.
 */
module Forms {
  import opened Wrappers
  import opened JsText
  import opened Json
  import opened Client

  /** The collection endpoint every request goes to. */
  const BASE_URL: string := "https://app-l9pwqf4vx-eakapaks-projects.vercel.app/api/users"

  const GET_ONE_ID_REQUIRED: string := "User ID is required for GET one."
  const PUT_ID_REQUIRED: string := "User ID is required for PUT update."
  const PUT_FIELD_REQUIRED: string := "At least one field (Name, Email, or Role) must be provided for update."
  const DELETE_ID_REQUIRED: string := "User ID is required for DELETE."

  /** What a handler does with the form: report a message without any request, or send one request. */
  datatype Action =
    | Reject(message: string)
    | Send(url: string, httpMethod: Method, payload: Option<JsObject>)

  /** The URL of one user: the collection URL, a slash and the id, which is not escaped. */
  function ResourceUrl(id: string): string {
    BASE_URL + "/" + id
  }

  /** The id a resource URL names, the inverse of ResourceUrl. */
  function IdOfUrl(url: string): Option<string> {
    var n := |BASE_URL| + 1;
    if |url| >= n && url[..n] == BASE_URL + "/" then Some(url[n..]) else None
  }

  /** The id can be read back from the URL built for it. */
  lemma UrlNamesId(id: string)
    ensures IdOfUrl(ResourceUrl(id)) == Some(id)
  {
    var n := |BASE_URL| + 1;
    assert ResourceUrl(id)[..n] == BASE_URL + "/";
    assert ResourceUrl(id)[n..] == id;
  }

  /** `GET /users`: the list button is never rejected; it sends a GET without a payload to the collection, which names no user. */
  function GetAllAction(): (a: Action)
    ensures a.Send? && a.url == BASE_URL && a.httpMethod == GET && a.payload.None?
    ensures IdOfUrl(a.url).None?
  {
    Send(BASE_URL, GET, None)
  }

  /** `GET /users/{id}`: a blank id is rejected, any other is sent, trimmed, without a payload. */
  function GetOneAction(idField: string): (a: Action)
    ensures a.Reject? <==> AllWhitespace(idField)
    ensures a.Reject? ==> a.message == GET_ONE_ID_REQUIRED
    ensures a.Send? ==> a.httpMethod == GET && a.payload.None? && IdOfUrl(a.url) == Some(Trim(idField))
  {
    BlankIffAllWhitespace(idField);
    UrlNamesId(Trim(idField));
    var userId := Trim(idField);
    if userId == "" then Reject(GET_ONE_ID_REQUIRED) else Send(ResourceUrl(userId), GET, None)
  }

  /** `DELETE /users/{id}`: a blank id is rejected, any other is sent, trimmed, without a payload. */
  function DeleteAction(idField: string): (a: Action)
    ensures a.Reject? <==> AllWhitespace(idField)
    ensures a.Reject? ==> a.message == DELETE_ID_REQUIRED
    ensures a.Send? ==> a.httpMethod == DELETE && a.payload.None? && IdOfUrl(a.url) == Some(Trim(idField))
  {
    BlankIffAllWhitespace(idField);
    UrlNamesId(Trim(idField));
    var userId := Trim(idField);
    if userId == "" then Reject(DELETE_ID_REQUIRED) else Send(ResourceUrl(userId), DELETE, None)
  }

  /** Which payload entries a handler deletes. */
  datatype Filter =
    | EmptyStrings        // the PUT handler: `data[key] === ''`
    | EmptyOrUndefined    // the POST handler: `data[key] === '' || data[key] === undefined`

  predicate Drops(filter: Filter, v: JsValue) {
    match filter
    case EmptyStrings => v == Val(JStr(""))
    case EmptyOrUndefined => v == Val(JStr("")) || v == Undefined
  }

  /** The entries of `data` that `filter` keeps. */
  function Pruned(data: JsObject, filter: Filter): JsObject {
    map k | k in data && !Drops(filter, data[k]) :: data[k]
  }

  /**
   * `Object.keys(data).forEach(key => <drop?> && delete data[key])`: walks the
   * keys in order and deletes each entry the filter drops.
   */
  method DeleteDropped(data: JsObject, keys: seq<string>, filter: Filter) returns (out: JsObject)
    requires forall k :: k in data ==> k in keys
    ensures out == Pruned(data, filter)
  {
    out := data;
    var i := 0;
    while i < |keys|
      invariant 0 <= i <= |keys|
      invariant forall k :: k in out <==> k in data && !(k in keys[..i] && Drops(filter, data[k]))
      invariant forall k :: k in out ==> out[k] == data[k]
    {
      var key := keys[i];
      if key in out && Drops(filter, out[key]) {
        out := out - {key};
      }
      assert keys[..i + 1] == keys[..i] + [key];
      i := i + 1;
    }
    assert keys[..i] == keys;
  }

  /** A string as a payload value. */
  function TextValue(s: string): JsValue {
    Val(JStr(s))
  }

  /** The object literal of the POST handler, over the trimmed fields: an empty id becomes `undefined`. */
  function PostData(id: string, name: string, email: string, role: string): JsObject {
    map[
      "id" := (if id != "" then TextValue(id) else Undefined),
      "name" := TextValue(name),
      "email" := TextValue(email),
      "role" := TextValue(role)]
  }

  /** The body of the create request for the raw form fields. */
  function PostPayload(idField: string, nameField: string, emailField: string, roleField: string): JsObject {
    Pruned(PostData(Trim(idField), Trim(nameField), Trim(emailField), Trim(roleField)), EmptyOrUndefined)
  }

  /** `{key}` when `value` is not empty, `{}` otherwise. */
  function KeyIfFilled(key: string, value: string): set<string> {
    if value == "" then {} else {key}
  }

  /**
   * After pruning, the create object holds exactly the fields that are not
   * empty, each with its value, and no other key.
   */
  lemma PostDataPruned(id: string, name: string, email: string, role: string)
    ensures var p := Pruned(PostData(id, name, email, role), EmptyOrUndefined);
      && p.Keys == KeyIfFilled("id", id) + KeyIfFilled("name", name) + KeyIfFilled("email", email) + KeyIfFilled("role", role)
      && ("id" in p ==> p["id"] == TextValue(id))
      && ("name" in p ==> p["name"] == TextValue(name))
      && ("email" in p ==> p["email"] == TextValue(email))
      && ("role" in p ==> p["role"] == TextValue(role))
  {
    var d := PostData(id, name, email, role);
    var p := Pruned(d, EmptyOrUndefined);
    assert d.Keys == {"id", "name", "email", "role"};
    assert "id" in p <==> id != "";
    assert "name" in p <==> name != "";
    assert "email" in p <==> email != "";
    assert "role" in p <==> role != "";
    var keys := KeyIfFilled("id", id) + KeyIfFilled("name", name) + KeyIfFilled("email", email) + KeyIfFilled("role", role);
    forall k | k in p ensures k in keys {
      assert k in d.Keys;
    }
    assert p.Keys == keys;
  }

  /**
   * The create payload holds exactly the fields that are not blank after
   * trimming, each with its trimmed value, and no other key.
   */
  lemma PostPayloadShape(idField: string, nameField: string, emailField: string, roleField: string)
    ensures var p := PostPayload(idField, nameField, emailField, roleField);
      && p.Keys == KeyIfFilled("id", Trim(idField)) + KeyIfFilled("name", Trim(nameField))
                 + KeyIfFilled("email", Trim(emailField)) + KeyIfFilled("role", Trim(roleField))
      && ("id" in p ==> p["id"] == TextValue(Trim(idField)))
      && ("name" in p ==> p["name"] == TextValue(Trim(nameField)))
      && ("email" in p ==> p["email"] == TextValue(Trim(emailField)))
      && ("role" in p ==> p["role"] == TextValue(Trim(roleField)))
  {
    PostDataPruned(Trim(idField), Trim(nameField), Trim(emailField), Trim(roleField));
  }

  /** The submit handler of the create form: it never rejects and always sends the pruned payload. */
  method SubmitPost(idField: string, nameField: string, emailField: string, roleField: string)
    returns (action: Action)
    ensures action == Send(BASE_URL, POST, Some(PostPayload(idField, nameField, emailField, roleField)))
  {
    var data := PostData(Trim(idField), Trim(nameField), Trim(emailField), Trim(roleField));
    data := DeleteDropped(data, ["id", "name", "email", "role"], EmptyOrUndefined);
    action := Send(BASE_URL, POST, Some(data));
  }

  /** The object literal of the PUT handler, over the trimmed fields. */
  function PutData(name: string, email: string, role: string): JsObject {
    map["name" := TextValue(name), "email" := TextValue(email), "role" := TextValue(role)]
  }

  /** The body of the update request for the raw form fields. */
  function PutPayload(nameField: string, emailField: string, roleField: string): JsObject {
    Pruned(PutData(Trim(nameField), Trim(emailField), Trim(roleField)), EmptyStrings)
  }

  /**
   * After pruning, the update object holds exactly the fields that are not
   * empty, each with its value; it has no id.
   */
  lemma PutDataPruned(name: string, email: string, role: string)
    ensures var p := Pruned(PutData(name, email, role), EmptyStrings);
      && p.Keys == KeyIfFilled("name", name) + KeyIfFilled("email", email) + KeyIfFilled("role", role)
      && "id" !in p
      && ("name" in p ==> p["name"] == TextValue(name))
      && ("email" in p ==> p["email"] == TextValue(email))
      && ("role" in p ==> p["role"] == TextValue(role))
  {
    var d := PutData(name, email, role);
    var p := Pruned(d, EmptyStrings);
    assert d.Keys == {"name", "email", "role"};
    assert "name" in p <==> name != "";
    assert "email" in p <==> email != "";
    assert "role" in p <==> role != "";
    var keys := KeyIfFilled("name", name) + KeyIfFilled("email", email) + KeyIfFilled("role", role);
    forall k | k in p ensures k in keys {
      assert k in d.Keys;
    }
    assert p.Keys == keys;
  }

  /**
   * The update payload holds exactly the fields that are not blank after
   * trimming, each with its trimmed value; the id is never part of it.
   */
  lemma PutPayloadShape(nameField: string, emailField: string, roleField: string)
    ensures var p := PutPayload(nameField, emailField, roleField);
      && p.Keys == KeyIfFilled("name", Trim(nameField)) + KeyIfFilled("email", Trim(emailField))
                 + KeyIfFilled("role", Trim(roleField))
      && "id" !in p
      && ("name" in p ==> p["name"] == TextValue(Trim(nameField)))
      && ("email" in p ==> p["email"] == TextValue(Trim(emailField)))
      && ("role" in p ==> p["role"] == TextValue(Trim(roleField)))
  {
    PutDataPruned(Trim(nameField), Trim(emailField), Trim(roleField));
  }

  /**
   * The submit handler of the update form: a blank id is rejected first, then
   * a form whose three fields are all blank; otherwise the pruned payload is
   * sent to the user's URL.
   */
  method SubmitPut(idField: string, nameField: string, emailField: string, roleField: string)
    returns (action: Action)
    ensures Blank(idField) ==> action == Reject(PUT_ID_REQUIRED)
    ensures !Blank(idField) && Blank(nameField) && Blank(emailField) && Blank(roleField)
      ==> action == Reject(PUT_FIELD_REQUIRED)
    ensures action.Send? <==> !Blank(idField) && !(Blank(nameField) && Blank(emailField) && Blank(roleField))
    ensures action.Send? ==> action == Send(ResourceUrl(Trim(idField)), PUT, Some(PutPayload(nameField, emailField, roleField)))
  {
    var userId := Trim(idField);
    if userId == "" {
      return Reject(PUT_ID_REQUIRED);
    }
    var data := PutData(Trim(nameField), Trim(emailField), Trim(roleField));
    data := DeleteDropped(data, ["name", "email", "role"], EmptyStrings);
    PutPayloadShape(nameField, emailField, roleField);
    if |data| == 0 {
      return Reject(PUT_FIELD_REQUIRED);
    }
    action := Send(ResourceUrl(userId), PUT, Some(data));
  }
}
