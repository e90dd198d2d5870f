/** `handleGetMessageToToast`: the translated error description shown for
    an action response. */
module ToastMessage {
  import opened Common

  /** `SimpleActionResponse`: whether the action failed, its numeric error
      code if any, and the fields that play no part in the toast. */
  datatype ActionResponse = ActionResponse(hasError: bool, errorCode: Option<int>, message: string)

  /** JavaScript truthiness of an optional number: absent and 0 are falsy. */
  predicate IsTruthyCode(code: Option<int>) {
    code.Some? && code.value != 0
  }

  /** The translation key for a status code: `StatusCodeMappingToString[code]`
      interpolated into a template, so a code without a mapping yields
      the text `undefined`. */
  function ErrorKey(statusNames: map<int, string>, code: int): (k: string)
    ensures code in statusNames ==> k == "error_message:" + statusNames[code]
    ensures code !in statusNames ==> k == "error_message:undefined"
  {
    "error_message:" + (if code in statusNames then statusNames[code] else "undefined")
  }

  const UnknownKey: string := "error_message:UNKNOWN"

  /** The description for a failed action, `undefined` for a successful one;
      `t` is the translation function. */
  function GetMessageToToast(t: string -> string, statusNames: map<int, string>, response: ActionResponse): (r: Option<string>)
    ensures r.None? <==> !response.hasError
    ensures response.hasError && IsTruthyCode(response.errorCode) ==>
              r == Some(t(ErrorKey(statusNames, response.errorCode.value)))
    ensures response.hasError && !IsTruthyCode(response.errorCode) ==> r == Some(t(UnknownKey))
  {
    if !response.hasError then None
    else if IsTruthyCode(response.errorCode) then Some(t(ErrorKey(statusNames, response.errorCode.value)))
    else Some(t(UnknownKey))
  }

  /** The description depends only on `hasError` and `errorCode`. */
  lemma OnlyErrorFieldsMatter(t: string -> string, statusNames: map<int, string>, a: ActionResponse, b: ActionResponse)
    requires a.hasError == b.hasError && a.errorCode == b.errorCode
    ensures GetMessageToToast(t, statusNames, a) == GetMessageToToast(t, statusNames, b)
  {
  }

  /** For a failure the result is always the translation of an
      `error_message:` key. */
  lemma FailureIsTranslated(t: string -> string, statusNames: map<int, string>, response: ActionResponse)
    requires response.hasError
    ensures exists key :: GetMessageToToast(t, statusNames, response) == Some(t(key)) && |key| >= 14 && key[..14] == "error_message:"
  {
    var key := if IsTruthyCode(response.errorCode) then ErrorKey(statusNames, response.errorCode.value) else UnknownKey;
    assert GetMessageToToast(t, statusNames, response) == Some(t(key));
    assert key[..14] == "error_message:";
  }
}
