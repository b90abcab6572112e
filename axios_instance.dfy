/** The response interceptor of the client's shared HTTP instance: a
    success passes through, a failure is turned into one error toast event
    and rejected again. `stringify` stands for JSON.stringify. */
module AxiosInstance {
  import opened Common
  import opened ClientTypes
  import ToasterView

  const FallbackMessage: string := "Une erreur inattendue est survenue"
  const ShowToastEvent: string := "show-toast"

  /** The server's error body when the response carries a truthy one. */
  predicate HasResponseData(err: AxiosError) {
    err.response.Some? && JsTruthy(err.response.value.data)
  }

  /** The text shown for a failed request. */
  function ErrorMessage(err: AxiosError, stringify: JsValue -> string): (m: string)
    ensures HasResponseData(err) && err.response.value.data.Str? ==> m == err.response.value.data.s
    ensures HasResponseData(err) && !err.response.value.data.Str? ==> m == stringify(err.response.value.data)
    ensures !HasResponseData(err) && Truthy(err.message) ==> m == err.message.value
    ensures !HasResponseData(err) && !Truthy(err.message) ==> m == FallbackMessage
  {
    if HasResponseData(err) then
      var data := err.response.value.data;
      if data.Str? then data.s else stringify(data)
    else if Truthy(err.message) then err.message.value
    else FallbackMessage
  }

  /** The interceptor: the outcome is handed on unchanged; a failure also
      emits exactly one 'show-toast' event, of severity error. */
  function Intercept<T>(o: Settled<T>, stringify: JsValue -> string): (r: (Settled<T>, seq<Toast>))
    ensures r.0 == o
    ensures o.Fulfilled? <==> |r.1| == 0
    ensures o.Rejected? ==> |r.1| == 1 && r.1[0].severity == Error
  {
    match o
    case Fulfilled(_) => (o, [])
    case Rejected(err) => (o, [Toast(Error, ErrorMessage(err, stringify))])
  }

  /** Whether JSON.stringify is non-empty on every truthy non-string value,
      as the real one is ("true", a number, "{...}" or "[...]"). */
  ghost predicate StringifyNonEmpty(stringify: JsValue -> string) {
    forall v :: JsTruthy(v) && !v.Str? ==> stringify(v) != ""
  }

  /** The message of an intercepted failure is never empty, so the toast it
      emits is always shown. */
  lemma ErrorMessageNonEmpty(err: AxiosError, stringify: JsValue -> string)
    requires StringifyNonEmpty(stringify)
    ensures ErrorMessage(err, stringify) != ""
  {
  }

  /** An empty-string body is falsy and falls through to the transport's
      message, or to the fallback. */
  lemma EmptyBodyFallsThrough(status: int, message: Option<string>, stringify: JsValue -> string)
    ensures ErrorMessage(AxiosError(Some(HttpResponse(status, Str(""))), message), stringify)
         == if Truthy(message) then message.value else FallbackMessage
  {
  }

  /** A structured body is shown as its serialisation, a textual body as is. */
  lemma StructuredBodyIsSerialised(status: int, entries: seq<(string, JsValue)>, message: Option<string>, stringify: JsValue -> string)
    ensures ErrorMessage(AxiosError(Some(HttpResponse(status, Obj(entries))), message), stringify) == stringify(Obj(entries))
  {
  }

  /** Every intercepted failure opens the toaster once its event reaches it,
      whatever the toaster's state was. */
  lemma FailureOpensToaster<T>(err: AxiosError, stringify: JsValue -> string, open: bool)
    requires StringifyNonEmpty(stringify)
    ensures var (_, events) := Intercept<T>(Rejected(err), stringify);
            ToasterView.OpenStep(open, ToasterView.ToastChanged(events[0]))
  {
    ErrorMessageNonEmpty(err, stringify);
  }
}
