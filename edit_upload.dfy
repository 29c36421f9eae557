/**
 * The image upload of the admin edit dialog
 * (frontend/src/pages/admin-panel/ProductList.tsx:69-77) against the
 * backend's `upload_image` (backend/main.py:66-86). The dialog passes the
 * chosen `File` to `j` inside a plain object, `{file}`, so it is sent as JSON
 * text; `JSON.stringify` turns a `File`, which has no own enumerable
 * properties, into `{}`. No file part reaches `request.files`, the backend
 * answers 400, and `j` throws before anything is saved. The add-product form
 * uploads the same file as the form-data part `file`
 * (frontend/src/pages/admin-panel/add-prodect.tsx:36-48), which the backend
 * accepts.
 */
module EditUpload {
  import opened Common
  import Json
  import ApiClient
  import ProductsApi

  const UploadPath := "/api/admin/upload-url"

  /** `{file}` as `JSON.stringify` sees it: an object whose `file` key holds an empty object. */
  const FileAsJson := ApiClient.JObj(map["file" := ApiClient.JObj(map[])])

  /** The first part named `file` among the parts of a form-data body. */
  function FirstFilePart(parts: seq<(string, string)>): (f: Option<ProductsApi.FilePart>)
    ensures f.Some? ==> exists i :: 0 <= i < |parts| && parts[i] == ("file", f.value.filename)
    ensures f.None? ==> forall i :: 0 <= i < |parts| ==> parts[i].0 != "file"
  {
    if parts == [] then None
    else if parts[0].0 == "file" then Some(ProductsApi.FilePart(parts[0].1))
    else
      var rest := FirstFilePart(parts[1..]);
      assert forall i :: 0 <= i < |parts| - 1 ==> parts[1..][i] == parts[i + 1];
      rest
  }

  /** `request.files.get("file")` for the body a request carries: only a form-data body has file parts. */
  function FilePartOf(body: ApiClient.Payload): (f: Option<ProductsApi.FilePart>)
    ensures !body.FormPayload? ==> f.None?
    ensures body.FormPayload? ==> f == FirstFilePart(body.parts)
  {
    if body.FormPayload? then FirstFilePart(body.parts) else None
  }

  /** `res.ok` for a backend answer, with its body text. */
  function Answer(r: Json.Response, text: string): (res: ApiClient.FetchResponse)
    ensures res.ok <==> 200 <= r.status < 300
    ensures res.text == text
  {
    ApiClient.FetchResponse(200 <= r.status < 300, text)
  }

  /** The backend's upload reply never has an `upload_url`, whatever it is sent. */
  lemma NoUploadUrlEver(file: Option<ProductsApi.FilePart>, uuid: string, publicUrl: string -> string)
    ensures "upload_url" !in ProductsApi.UploadImage(file, uuid, publicUrl).body
  {
  }

  /**
   * The upload as the edit dialog writes it: `j(UploadPath, "POST", {file},
   * token)`. The request is JSON text with no file part, so the backend
   * answers 400 and the promise rejects with the answer's text.
   */
  method EditUploadAsWritten(env: Option<string>, token: Option<string>, stringify: ApiClient.JsValue -> string,
                             uuid: string, publicUrl: string -> string, text: string,
                             parse: string -> Option<ApiClient.JsValue>)
    returns (req: ApiClient.Request, answer: Json.Response, settled: Result<ApiClient.JsValue, ApiClient.ApiError>)
    ensures req.url == ApiClient.ApiBase(env) + UploadPath && req.verb == "POST"
    ensures req.body == ApiClient.JsonText(stringify(FileAsJson))
    ensures "Content-Type" in req.headers && req.headers["Content-Type"] == "application/json"
    ensures FilePartOf(req.body) == None
    ensures answer == ProductsApi.UploadImage(FilePartOf(req.body), uuid, publicUrl)
    ensures answer.status == 400
    ensures settled == ApiClient.Settle(Some(Answer(answer, text)), parse)
    ensures settled == Err(ApiClient.HttpError(text))
  {
    req := ApiClient.BuildRequest(env, UploadPath, "POST", ApiClient.Value(FileAsJson), token, stringify);
    answer := ProductsApi.UploadImage(FilePartOf(req.body), uuid, publicUrl);
    settled := ApiClient.Settle(Some(Answer(answer, text)), parse);
  }

  /** The `public_url` of an upload reply, when the reply is a success carrying a string there. */
  function PublicUrlOf(r: Json.Response): (u: Option<string>)
    ensures u.Some? ==> 200 <= r.status < 300 && "public_url" in r.body && r.body["public_url"] == Json.VStr(u.value)
  {
    if 200 <= r.status < 300 && "public_url" in r.body && r.body["public_url"].VStr? then Some(r.body["public_url"].s)
    else None
  }

  /**
   * The upload the dialog evidently intends, sent as the add-product form
   * sends it: the file as the form-data part `file`, with no JSON content
   * type. A named file is then accepted, and the image URL to save is the
   * bucket's public URL of the stored object.
   */
  method EditUploadCorrected(env: Option<string>, token: Option<string>, stringify: ApiClient.JsValue -> string,
                             fileName: string, uuid: string, publicUrl: string -> string)
    returns (req: ApiClient.Request, answer: Json.Response, imageUrl: Option<string>)
    ensures req.url == ApiClient.ApiBase(env) + UploadPath && req.verb == "POST"
    ensures req.body == ApiClient.FormPayload([("file", fileName)])
    ensures "Content-Type" !in req.headers
    ensures FilePartOf(req.body) == Some(ProductsApi.FilePart(fileName))
    ensures answer == ProductsApi.UploadImage(FilePartOf(req.body), uuid, publicUrl)
    ensures fileName != "" ==> answer.status == 200 && imageUrl == Some(publicUrl("products/" + uuid + "-" + fileName))
    ensures fileName == "" ==> answer.status == 400 && imageUrl == None
  {
    req := ApiClient.BuildRequest(env, UploadPath, "POST", ApiClient.FormData([("file", fileName)]), token, stringify);
    answer := ProductsApi.UploadImage(FilePartOf(req.body), uuid, publicUrl);
    imageUrl := PublicUrlOf(answer);
  }
}
