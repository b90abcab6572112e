/** The client's data transfer objects, as far as the modelled pages use
    them, and the HTTP request that a service call issues. */
module ClientTypes {
  import opened Common

  datatype Severity = Success | Error | Warning | Info

  /** What the toast shows: a severity and a text. */
  datatype Toast = Toast(severity: Severity, message: string)

  /** One opening-hours entry as the form edits it: a day number (1 is
      Monday) and the two times as 'HH:mm:ss' text, either of which the
      time picker may clear. */
  datatype Hours = Hours(day: int, openAt: Option<string>, closeAt: Option<string>)

  /** A shop as the client sends and receives it; `id` is absent on a shop
      that has not been created yet. */
  datatype Shop = Shop(id: Option<string>, name: string, inVacations: bool, openingHours: seq<Hours>)

  datatype Category = Category(id: int, name: string)

  datatype Product = Product(id: int, name: string)

  datatype Verb = Get | Post | Put | Delete

  /** One HTTP call: verb, full URL and, for POST and PUT, the shop sent. */
  datatype HttpRequest = HttpRequest(verb: Verb, url: string, body: Option<Shop>)

  /** A JavaScript value as far as the error path inspects it; numbers are
      modelled as integers. */
  datatype JsValue =
    | Undefined
    | Null
    | Bool(b: bool)
    | Num(n: int)
    | Str(s: string)
    | Obj(entries: seq<(string, JsValue)>)

  /** JavaScript truthiness: false, 0, "" , null and undefined are falsy;
      every object is truthy. */
  predicate JsTruthy(v: JsValue) {
    match v
    case Undefined => false
    case Null => false
    case Bool(b) => b
    case Num(n) => n != 0
    case Str(s) => s != ""
    case Obj(_) => true
  }

  /** Optional property access `v?.key`: undefined unless `v` is an object
      holding `key` (the first entry under that name). */
  function Property(v: JsValue, key: string): JsValue {
    match v
    case Obj(entries) => EntryValue(entries, key)
    case _ => Undefined
  }

  function EntryValue(entries: seq<(string, JsValue)>, key: string): JsValue {
    if |entries| == 0 then Undefined
    else if entries[0].0 == key then entries[0].1
    else EntryValue(entries[1..], key)
  }

  /** The part of an HTTP response the client reads on failure. */
  datatype HttpResponse = HttpResponse(status: int, data: JsValue)

  /** A failed request: the server's response when one arrived, and the
      transport's message when it set one. */
  datatype AxiosError = AxiosError(response: Option<HttpResponse>, message: Option<string>)

  /** How a request settled, as a page sees it. */
  datatype Settled<+T> = Fulfilled(value: T) | Rejected(error: AxiosError)

  /** JavaScript truthiness of an optional string: present and non-empty. */
  predicate Truthy(s: Option<string>) {
    s.Some? && s.value != ""
  }

  /** `error.response?.data?.message` when it is a non-empty string. */
  function ServerMessage(e: AxiosError): Option<string> {
    if e.response.Some? then
      match Property(e.response.value.data, "message")
      case Str(m) => if m != "" then Some(m) else None
      case _ => None
    else None
  }
}
