/**
 * The frontend's single HTTP helper (frontend/src/api.ts): `j` builds the
 * request (headers, URL, body) for `fetch`, and turns a non-ok response into
 * an error carrying the response text; `g` is `j` for a body-less GET.
 * `fetch` itself, `JSON.stringify` and `JSON.parse` are parameters.
 */
module ApiClient {
  import opened Common

  /** A JavaScript value that may be passed as a body. */
  datatype JsValue =
    | JNull
    | JBool(b: bool)
    | JNum(n: real)
    | JStr(s: string)
    | JArr(items: seq<JsValue>)
    | JObj(fields: map<string, JsValue>)

  /** JavaScript truthiness: only `null`, `false`, `0` and `""` are falsy here (NaN is not modelled). */
  predicate JsTruthy(v: JsValue)
  {
    match v
    case JNull => false
    case JBool(b) => b
    case JNum(n) => n != 0.0
    case JStr(s) => s != ""
    case _ => true
  }

  /** The `body` argument: omitted, a `FormData` (by its parts), or any other value. */
  datatype BodyArg = Omitted | FormData(parts: seq<(string, string)>) | Value(v: JsValue)

  /** What is handed to `fetch` as the body. */
  datatype Payload = NoPayload | FormPayload(parts: seq<(string, string)>) | JsonText(text: string)

  datatype Request = Request(url: string, verb: string, headers: map<string, string>, body: Payload)

  /** `import.meta.env.VITE_API_BASE || '/'`: never empty, and either the configured base or `/`. */
  function ApiBase(env: Option<string>): (base: string)
    ensures base != ""
    ensures base == "/" || env == Some(base)
  {
    if env.Some? && env.value != "" then env.value else "/"
  }

  /** The URL is the plain concatenation: a base with a trailing slash and a path with a leading one give `//`. */
  lemma NoUrlNormalisation()
    ensures ApiBase(None) + "/api/products" == "//api/products"
    ensures ApiBase(Some("https://shop.example/")) + "/api/me" == "https://shop.example//api/me"
  {
  }

  predicate TokenTruthy(token: Option<string>)
  {
    token.Some? && token.value != ""
  }

  /**
   * The request `j(path, method, body, token)` hands to `fetch`: an
   * Authorization header exactly when the token is truthy, the JSON content
   * type exactly when the body is not a `FormData`, and the body passed
   * through, stringified, or dropped when falsy.
   */
  method BuildRequest(env: Option<string>, path: string, verb: string, body: BodyArg, token: Option<string>,
                      stringify: JsValue -> string)
    returns (r: Request)
    ensures r.url == ApiBase(env) + path && r.verb == verb
    ensures env.Some? && env.value != "" ==> r.url == env.value + path
    ensures env.None? || env.value == "" ==> r.url == "/" + path
    ensures r.headers.Keys <= {"Authorization", "Content-Type"}
    ensures "Authorization" in r.headers <==> TokenTruthy(token)
    ensures "Authorization" in r.headers ==> r.headers["Authorization"] == "Bearer " + token.value
    ensures "Content-Type" in r.headers <==> !body.FormData?
    ensures "Content-Type" in r.headers ==> r.headers["Content-Type"] == "application/json"
    ensures body.FormData? ==> r.body == FormPayload(body.parts)
    ensures body.Value? && JsTruthy(body.v) ==> r.body == JsonText(stringify(body.v))
    ensures body.Omitted? || (body.Value? && !JsTruthy(body.v)) ==> r.body == NoPayload
  {
    var headers: map<string, string> := if TokenTruthy(token) then map["Authorization" := "Bearer " + token.value] else map[];
    var isFormData := body.FormData?;
    if !isFormData {
      headers := headers["Content-Type" := "application/json"];
    }
    var payload := if isFormData then FormPayload(body.parts)
                   else if body.Value? && JsTruthy(body.v) then JsonText(stringify(body.v))
                   else NoPayload;
    r := Request(ApiBase(env) + path, verb, headers, payload);
  }

  /** `g(path, token)`: a GET with no body, still declaring a JSON content type. */
  method GetRequest(env: Option<string>, path: string, token: Option<string>, stringify: JsValue -> string)
    returns (r: Request)
    ensures r.url == ApiBase(env) + path && r.verb == "GET" && r.body == NoPayload
    ensures r.headers.Keys == (if TokenTruthy(token) then {"Authorization", "Content-Type"} else {"Content-Type"})
    ensures r.headers["Content-Type"] == "application/json"
  {
    r := BuildRequest(env, path, "GET", Omitted, token, stringify);
  }

  /** `{}` and `[]` are truthy, so they are sent; `0`, `false` and `""` are not. */
  lemma EmptyContainersAreSent()
    ensures JsTruthy(JObj(map[])) && JsTruthy(JArr([]))
    ensures !JsTruthy(JNum(0.0)) && !JsTruthy(JBool(false)) && !JsTruthy(JStr(""))
  {
  }

  /** What `fetch` resolves to: the `ok` flag and the body's text. */
  datatype FetchResponse = FetchResponse(ok: bool, text: string)

  /** Why the promise `j` returns rejects. */
  datatype ApiError =
    | NetworkError           // `fetch` itself rejected
    | HttpError(message: string)  // `throw new Error(await res.text())`
    | BadJson                // `res.json()` rejected: the body of an ok response is not JSON

  /**
   * The promise `j` returns, given what `fetch` resolved to (`None`: it
   * rejected) and `parse`, the `JSON.parse` of a body text (`None`: it
   * throws). It resolves exactly to the parsed body of an ok response; a
   * non-ok response rejects with an error carrying its text, and its body is
   * never parsed.
   */
  function Settle(res: Option<FetchResponse>, parse: string -> Option<JsValue>): (r: Result<JsValue, ApiError>)
    ensures r.Ok? <==> res.Some? && res.value.ok && parse(res.value.text).Some?
    ensures r.Ok? ==> parse(res.value.text) == Some(r.value)
    ensures res.None? ==> r == Err(NetworkError)
    ensures res.Some? && !res.value.ok ==> r == Err(HttpError(res.value.text))
    ensures res.Some? && res.value.ok && parse(res.value.text).None? ==> r == Err(BadJson)
  {
    match res
    case None => Err(NetworkError)
    case Some(FetchResponse(ok, text)) =>
      if !ok then Err(HttpError(text))
      else match parse(text)
        case None => Err(BadJson)
        case Some(v) => Ok(v)
  }

  /** A non-ok response rejects the same way whatever `res.json()` would have done with its body. */
  lemma ErrorBodyNeverParsed(text: string, parse1: string -> Option<JsValue>, parse2: string -> Option<JsValue>)
    ensures Settle(Some(FetchResponse(false, text)), parse1) == Settle(Some(FetchResponse(false, text)), parse2)
  {
  }

  /**
   * `j(path, method, body, token)` in full: the request it hands to `fetch`
   * (`fetch` answering `fetch(req)`), and what its promise settles to.
   */
  method Call(env: Option<string>, path: string, verb: string, body: BodyArg, token: Option<string>,
              stringify: JsValue -> string, fetch: Request -> Option<FetchResponse>, parse: string -> Option<JsValue>)
    returns (req: Request, r: Result<JsValue, ApiError>)
    ensures req.url == ApiBase(env) + path && req.verb == verb
    ensures "Authorization" in req.headers <==> TokenTruthy(token)
    ensures r == Settle(fetch(req), parse)
    ensures r.Ok? <==> fetch(req).Some? && fetch(req).value.ok && parse(fetch(req).value.text).Some?
  {
    req := BuildRequest(env, path, verb, body, token, stringify);
    r := Settle(fetch(req), parse);
  }
}
