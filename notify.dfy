/**
 * `displayResult`: which notification the message box shows for a result.
 * Writing the result into its `<pre>` element, its colour and the timer that
 * hides the box are page effects and are not modelled.
 */
module Notify {
  import opened JsText
  import opened Json
  import opened Client

  /** The `<pre>` element of the "list all" button, the only one whose arrays are counted. */
  const LIST_ELEMENT: string := "get-list-data"

  /** The kind of notification: `'success'` or `'error'`. */
  datatype Status = Success | Error

  /** What a call of `displayResult` ends in. */
  datatype Outcome =
    | NoElement                              // no element has the given id: nothing is shown
    | Shown(status: Status, message: string) // the message box shows `message`
    | Throws                                 // reading a property of a `null` result threw a TypeError

  /**
   * The notification for `result`. An error shows `<METHOD> FAILED: <message>`;
   * a success shows a method-specific message: the new id for POST, the
   * number of users for the list, the deleted id for DELETE, and
   * `<METHOD> Successful.` otherwise.
   */
  function DisplayResult(elementId: string, elementFound: bool, result: Json, httpMethod: Method, isError: bool)
    : (r: Outcome)
    ensures r.NoElement? <==> !elementFound
    ensures r.Shown? ==> (r.status == Error <==> isError)
    ensures r.Throws? <==> elementFound && result == JNull && (isError || httpMethod == POST || httpMethod == DELETE)
    ensures elementFound && isError && result != JNull
      ==> r == Shown(Error, httpMethod.Name() + " FAILED: " + Interpolate(Prop(result, "message")))
    ensures elementFound && !isError && httpMethod == POST && result != JNull
      ==> r == Shown(Success, "User ID: " + Interpolate(Prop(result, "id")) + " created successfully!")
    ensures elementFound && !isError && httpMethod == GET && elementId == LIST_ELEMENT && result.JArr?
      ==> r == Shown(Success, "Found " + NatToString(|result.items|) + " users.")
    ensures elementFound && !isError && httpMethod == DELETE && result != JNull
      ==> r == Shown(Success, "User ID: " + Interpolate(Prop(result, "deleted")) + " deleted successfully.")
    ensures elementFound && !isError && httpMethod == PUT ==> r == Shown(Success, "PUT Successful.")
    ensures elementFound && !isError && httpMethod == GET && !(elementId == LIST_ELEMENT && result.JArr?)
      ==> r == Shown(Success, "GET Successful.")
  {
    if !elementFound then NoElement
    else if isError && result == JNull then Throws
    else
      var status := if isError then Error else Success;
      var message :=
        if isError then httpMethod.Name() + " FAILED: " + Interpolate(Prop(result, "message"))
        else httpMethod.Name() + " Successful.";
      if httpMethod == POST && !isError then
        if result == JNull then Throws
        else Shown(status, "User ID: " + Interpolate(Prop(result, "id")) + " created successfully!")
      else if httpMethod == GET && elementId == LIST_ELEMENT && result.JArr? && !isError then
        Shown(status, "Found " + NatToString(|result.items|) + " users.")
      else if httpMethod == DELETE && !isError then
        if result == JNull then Throws
        else Shown(status, "User ID: " + Interpolate(Prop(result, "deleted")) + " deleted successfully.")
      else
        Shown(status, message)
  }

  /**
   * The handlers report a local rejection or a thrown error by displaying
   * `{message: text}` as an error: the box then shows `<METHOD> FAILED: text`.
   */
  lemma FailureReported(elementId: string, httpMethod: Method, text: string)
    ensures DisplayResult(elementId, true, MessageObject(text), httpMethod, true)
      == Shown(Error, httpMethod.Name() + " FAILED: " + text)
  {
    assert Prop(MessageObject(text), "message") == Val(JStr(text));
  }

  /**
   * An HTTP failure of `sendRequest` reaches the user as
   * `<METHOD> FAILED: [<status> <statusText>] ...`.
   */
  lemma HttpFailureReported(elementId: string, httpMethod: Method, response: Response)
    requires Settle(httpMethod, response).Err? && Settle(httpMethod, response).error.HttpError?
    ensures var text := Settle(httpMethod, response).error.message;
      && DisplayResult(elementId, true, MessageObject(text), httpMethod, true)
         == Shown(Error, httpMethod.Name() + " FAILED: " + text)
      && httpMethod.Name() + " FAILED: " + StatusPrefix(response) <= httpMethod.Name() + " FAILED: " + text
  {
    FailureReported(elementId, httpMethod, Settle(httpMethod, response).error.message);
  }

  /** A successful DELETE answered with `{"deleted": 42}` shows `User ID: 42 deleted successfully.` */
  lemma DeleteExample(elementId: string)
    ensures DisplayResult(elementId, true, JObj(map["deleted" := JNum(42)]), DELETE, false)
      == Shown(Success, "User ID: 42 deleted successfully.")
  {
    assert NatToString(42) == "42" by {
      assert NatToString(4) == "4";
    }
    var result := JObj(map["deleted" := JNum(42)]);
    assert Prop(result, "deleted") == Val(JNum(42));
    assert IntToString(42) == "42";
    assert Interpolate(Prop(result, "deleted")) == "42";
    assert "User ID: " + "42" + " deleted successfully." == "User ID: 42 deleted successfully.";
  }
}
