/** The REST request wrapper (js/api.js): how a request is built from its
    inputs and the stored session token, how a `(status, text)` response is
    classified, and the session effect of a 401 outside the sign-in pages.
    `fetch` is not modelled: its outcome is a parameter. JSON.parse is the
    partial function `parse` (None when it throws). */
module Api {
  import opened Wrappers
  import opened JsStrings
  import opened Json

  /** API_BASE. */
  const ApiBase: string := "http://localhost/File Sharing/backend/api/"

  const LoginPage: string := "login.html"

  /** The pages on which a 401 is reported as an error instead of signing out. */
  const AuthPages: seq<string> := ["login.html", "register.html", "forgot.html", "verify.html", "index.html"]

  const InvalidJsonMessage: string := "Server error: Invalid JSON response"

  const DefaultErrorMessage: string := "Something went wrong"

  /** A file chosen by the user; only its name and size are observable. */
  datatype UploadFile = UploadFile(name: string, size: nat)

  datatype FormValue = FileValue(file: UploadFile) | TextValue(text: string) | NumberValue(n: int)

  datatype FormField = FormField(name: string, value: FormValue)

  /** A FormData object: its fields in the order they were appended. */
  type FormData = seq<FormField>

  /** The `data` argument of `api.request`: null/undefined, a plain value
      (sent as JSON), or a FormData object. */
  datatype Payload = NoPayload | JsonPayload(value: Json) | FormPayload(form: FormData)

  /** The body handed to fetch; `JsonText(v)` stands for JSON.stringify(v). */
  datatype Body = NoBody | JsonText(value: Json) | Multipart(form: FormData)

  datatype HttpRequest = HttpRequest(
    url: string,
    verb: string,
    headers: map<string, string>,
    credentials: string,
    body: Body)

  /** `if (data)` on the data argument. */
  predicate PayloadTruthy(data: Payload)
  {
    match data
    case NoPayload => false
    case JsonPayload(v) => Truthy(v)
    case FormPayload(_) => true
  }

  function Lookup(storage: map<string, string>, key: string): Option<string>
  {
    if key in storage then Some(storage[key]) else None
  }

  /** The options object `request` hands to fetch, given the token found in
      localStorage. */
  function BuildRequest(endpoint: string, verb: string, data: Payload, token: Option<string>): (r: HttpRequest)
    ensures r.url == ApiBase + endpoint && r.verb == verb && r.credentials == "include"
    ensures "Authorization" in r.headers <==> token.Some? && token.value != ""
    ensures "Authorization" in r.headers ==> r.headers["Authorization"] == "Bearer " + token.value
    ensures "Content-Type" in r.headers <==> !data.FormPayload?
    ensures "Content-Type" in r.headers ==> r.headers["Content-Type"] == "application/json"
    ensures r.headers.Keys <= {"Authorization", "Content-Type"}
    ensures data.FormPayload? ==> r.body == Multipart(data.form)
    ensures !data.FormPayload? ==> (r.body.JsonText? <==> PayloadTruthy(data)) && !r.body.Multipart?
    ensures r.body.JsonText? ==> data == JsonPayload(r.body.value)
  {
    var auth: map<string, string> :=
      if token.Some? && token.value != "" then map["Authorization" := "Bearer " + token.value] else map[];
    var headers := if data.FormPayload? then auth else auth["Content-Type" := "application/json"];
    var body :=
      if data.FormPayload? then Multipart(data.form)
      else if PayloadTruthy(data) then JsonText(data.value)
      else NoBody;
    HttpRequest(ApiBase + endpoint, verb, headers, "include", body)
  }

  /** What fetch delivered: a response with its status and text, or a
      rejection (network failure). */
  datatype FetchOutcome = Response(status: int, text: string) | NetworkError

  /** The errors `request` throws. */
  datatype ApiError =
    | HttpError(message: string, status: int) // Error(result.message || default) carrying .status
    | InvalidJson                             // the body is not JSON; no status
    | NullBody                                // TypeError: reading `.message` of a null body; no status
    | FetchFailed                             // fetch itself rejected; no status

  /** `err.status` */
  function Status(e: ApiError): Option<int>
  {
    if e.HttpError? then Some(e.status) else None
  }

  /** `err.message`, where the model knows it; None where the text is chosen by
      the JavaScript engine (a TypeError, a failed fetch). */
  function Message(e: ApiError): Option<string>
  {
    match e
    case HttpError(m, _) => Some(m)
    case InvalidJson => Some(InvalidJsonMessage)
    case _ => None
  }

  /** What `await api.request(...)` produces: a value, undefined (after the
      sign-out redirect), or a thrown error. */
  datatype ApiResult = Returned(value: Json) | Redirected | Failed(error: ApiError)

  predicate IsOk(status: int) { 200 <= status <= 299 }

  /** `window.location.pathname` contains one of the sign-in pages. */
  predicate IsAuthPage(pathname: string)
  {
    exists p :: p in AuthPages && Includes(pathname, p)
  }

  /** `text ? JSON.parse(text) : {}` */
  function ParseBody(text: string, parse: string -> Option<Json>): Option<Json>
  {
    if text == "" then Some(JObj(map[])) else parse(text)
  }

  /** The error thrown for a parsed non-2xx body. */
  function ErrorFor(result: Json, status: int): ApiError
  {
    match Get(result, "message")
    case NullAccess => NullBody
    case Missing => HttpError(DefaultErrorMessage, status)
    case Present(m) => HttpError(if Truthy(m) then ToText(m) else DefaultErrorMessage, status)
  }

  /** The response classification of `request`. */
  function Classify(fetched: FetchOutcome, parse: string -> Option<Json>, pathname: string): (r: ApiResult)
    ensures fetched.NetworkError? ==> r == Failed(FetchFailed)
    // parse failure is decided before the status is looked at
    ensures fetched.Response? && ParseBody(fetched.text, parse).None? ==> r == Failed(InvalidJson)
    ensures r.Returned? <==>
      fetched.Response? && IsOk(fetched.status) && ParseBody(fetched.text, parse).Some?
    ensures r.Returned? ==> Some(r.value) == ParseBody(fetched.text, parse)
    ensures r.Redirected? <==>
      fetched.Response? && fetched.status == 401 && !IsAuthPage(pathname)
      && ParseBody(fetched.text, parse).Some?
    // only an error built from a parsed non-2xx body carries a status, and it is the HTTP status
    ensures r.Failed? && Status(r.error).Some? ==>
      fetched.Response? && !IsOk(fetched.status) && Status(r.error) == Some(fetched.status)
      && ParseBody(fetched.text, parse).Some? && !ParseBody(fetched.text, parse).value.JNull?
  {
    match fetched
    case NetworkError => Failed(FetchFailed)
    case Response(status, text) =>
      match ParseBody(text, parse)
      case None => Failed(InvalidJson)
      case Some(result) =>
        if IsOk(status) then Returned(result)
        else if status == 401 && !IsAuthPage(pathname) then Redirected
        else Failed(ErrorFor(result, status))
  }

  /** A non-2xx response other than the sign-out 401 throws an error whose
      status is the HTTP status and whose message is the body's `message`
      (as text) or the default, exactly when the body parses to a non-null
      value. */
  lemma ErrorCarriesStatus(status: int, text: string, parse: string -> Option<Json>, pathname: string)
    requires !IsOk(status) && !(status == 401 && !IsAuthPage(pathname))
    ensures var r := Classify(Response(status, text), parse, pathname);
      (r.Failed? && Status(r.error) == Some(status)) <==>
      (ParseBody(text, parse).Some? && !ParseBody(text, parse).value.JNull?)
    ensures var r := Classify(Response(status, text), parse, pathname);
      r.Failed? && Status(r.error) == Some(status) ==>
        var m := Get(ParseBody(text, parse).value, "message");
        r.error.message == if MemberTruthy(m) then ToText(m.value) else DefaultErrorMessage
  {
  }

  /** A 401 on a sign-in page is an ordinary error with status 401. */
  lemma UnauthorizedOnAuthPage(text: string, parse: string -> Option<Json>, pathname: string)
    requires IsAuthPage(pathname)
    requires ParseBody(text, parse).Some? && !ParseBody(text, parse).value.JNull?
    ensures Classify(Response(401, text), parse, pathname).Failed?
    ensures Status(Classify(Response(401, text), parse, pathname).error) == Some(401)
  {
  }

  /** `api.upload` sends a FormData argument as it is and wraps any other
      value in a FormData with the single field `file`. */
  datatype UploadData = AsForm(form: FormData) | AsValue(value: FormValue)

  function UploadForm(data: UploadData): (f: FormData)
    ensures data.AsForm? ==> f == data.form
    ensures data.AsValue? ==> f == [FormField("file", data.value)]
  {
    match data
    case AsForm(form) => form
    case AsValue(v) => [FormField("file", v)]
  }

  /** The browser session `request` reads and changes: localStorage and
      `window.location`. */
  class Session {
    var storage: map<string, string>
    var href: string
    var pathname: string

    constructor (storage: map<string, string>, href: string, pathname: string)
      ensures this.storage == storage && this.href == href && this.pathname == pathname
    {
      this.storage := storage;
      this.href := href;
      this.pathname := pathname;
    }

    /** The effect of one request on the session: the sign-out redirect
        removes `user` and `token` and goes to the login page; every other
        outcome leaves the session alone. */
    ghost predicate Effect(oldStorage: map<string, string>, oldHref: string, result: ApiResult)
      reads this
    {
      if result.Redirected? then storage == oldStorage - {"user", "token"} && href == LoginPage
      else storage == oldStorage && href == oldHref
    }

    /** `api.request(endpoint, method, data)`: builds the fetch options step
        by step, classifies what fetch delivered, and signs out on a 401
        outside the sign-in pages. */
    method Request(endpoint: string, verb: string, data: Payload, fetched: FetchOutcome,
                   parse: string -> Option<Json>)
      returns (sent: HttpRequest, result: ApiResult)
      modifies this
      ensures sent == BuildRequest(endpoint, verb, data, Lookup(old(storage), "token"))
      ensures result == Classify(fetched, parse, old(pathname))
      ensures pathname == old(pathname) && Effect(old(storage), old(href), result)
    {
      var url := ApiBase + endpoint;
      var headers: map<string, string> := map[];
      var body := NoBody;
      var token := Lookup(storage, "token");
      if token.Some? && token.value != "" {
        headers := headers["Authorization" := "Bearer " + token.value];
      }
      if !data.FormPayload? {
        headers := headers["Content-Type" := "application/json"];
        if PayloadTruthy(data) {
          body := JsonText(data.value);
        }
      } else {
        body := Multipart(data.form);
      }
      sent := HttpRequest(url, verb, headers, "include", body);
      result := Classify(fetched, parse, pathname);
      if result.Redirected? {
        storage := storage - {"user", "token"};
        href := LoginPage;
      }
    }

    method Get(endpoint: string, fetched: FetchOutcome, parse: string -> Option<Json>)
      returns (sent: HttpRequest, result: ApiResult)
      modifies this
      ensures sent == BuildRequest(endpoint, "GET", NoPayload, Lookup(old(storage), "token"))
      ensures result == Classify(fetched, parse, old(pathname))
      ensures pathname == old(pathname) && Effect(old(storage), old(href), result)
    {
      sent, result := Request(endpoint, "GET", NoPayload, fetched, parse);
    }

    method Post(endpoint: string, data: Payload, fetched: FetchOutcome, parse: string -> Option<Json>)
      returns (sent: HttpRequest, result: ApiResult)
      modifies this
      ensures sent == BuildRequest(endpoint, "POST", data, Lookup(old(storage), "token"))
      ensures result == Classify(fetched, parse, old(pathname))
      ensures pathname == old(pathname) && Effect(old(storage), old(href), result)
    {
      sent, result := Request(endpoint, "POST", data, fetched, parse);
    }

    method Delete(endpoint: string, data: Payload, fetched: FetchOutcome, parse: string -> Option<Json>)
      returns (sent: HttpRequest, result: ApiResult)
      modifies this
      ensures sent == BuildRequest(endpoint, "DELETE", data, Lookup(old(storage), "token"))
      ensures result == Classify(fetched, parse, old(pathname))
      ensures pathname == old(pathname) && Effect(old(storage), old(href), result)
    {
      sent, result := Request(endpoint, "DELETE", data, fetched, parse);
    }

    method Upload(endpoint: string, data: UploadData, fetched: FetchOutcome, parse: string -> Option<Json>)
      returns (sent: HttpRequest, result: ApiResult)
      modifies this
      ensures sent == BuildRequest(endpoint, "POST", FormPayload(UploadForm(data)), Lookup(old(storage), "token"))
      ensures sent.body == Multipart(UploadForm(data)) && "Content-Type" !in sent.headers
      ensures result == Classify(fetched, parse, old(pathname))
      ensures pathname == old(pathname) && Effect(old(storage), old(href), result)
    {
      if data.AsForm? {
        sent, result := Request(endpoint, "POST", FormPayload(data.form), fetched, parse);
      } else {
        var form := [FormField("file", data.value)];
        sent, result := Request(endpoint, "POST", FormPayload(form), fetched, parse);
      }
    }
  }
}
