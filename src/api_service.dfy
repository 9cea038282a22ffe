/** The HTTP service: the lazily created client, the shared error handling
    of every request method, the `update` URL join and the image-URL helper. */
module ApiService {
  import opened Common
  import opened JsText

  /** The configured origins: the environment variable when it is a
      non-empty string, the built-in default otherwise. */
  function ConfiguredUrl(env: Option<string>, default: string): (r: string)
    ensures TruthyText(env) ==> r == env.value
    ensures !TruthyText(env) ==> r == default
  {
    if TruthyText(env) then env.value else default
  }

  const DefaultApiUrl: string := "http://localhost:8000"
  const DefaultImageServerUrl: string := "http://localhost:8090"
  const ApiTimeout: int := 10000
  const JsonContentType: string := "application/json"
  const DefaultErrorMessage: string := "An error occurred"

  /** The HTTP client instance (`axios.create(...)` with both interceptors
      attached). */
  class ApiClient {
    const baseUrl: string
    const timeout: int
    const contentType: string
    const interceptorsAttached: bool

    constructor (baseUrl: string)
      ensures this.baseUrl == baseUrl && timeout == ApiTimeout
      ensures contentType == JsonContentType && interceptorsAttached
    {
      this.baseUrl := baseUrl;
      timeout := ApiTimeout;
      contentType := JsonContentType;
      interceptorsAttached := true;
    }
  }

  /** The module-level `apiInstance` singleton. */
  class ApiInstanceHolder {
    var apiInstance: ApiClient?

    constructor ()
      ensures apiInstance == null
    {
      apiInstance := null;
    }

    /** `getApiInstance`: creates the client on the first call only and
        returns that same object on every later call. */
    method GetApiInstance(baseUrl: string) returns (c: ApiClient)
      modifies this
      ensures old(apiInstance) != null ==> c == old(apiInstance)
      ensures old(apiInstance) == null ==>
                fresh(c) && c.baseUrl == baseUrl && c.timeout == ApiTimeout
                && c.contentType == JsonContentType && c.interceptorsAttached
      ensures apiInstance == c
    {
      if apiInstance == null {
        apiInstance := new ApiClient(baseUrl);
      }
      c := apiInstance;
    }
  }

  /** Two calls of `getApiInstance` yield one and the same client. */
  method SingletonScenario(baseUrl: string) returns (same: bool, configuredUrl: string)
    ensures same
    ensures configuredUrl == baseUrl
  {
    var holder := new ApiInstanceHolder();
    var first := holder.GetApiInstance(baseUrl);
    var second := holder.GetApiInstance(baseUrl + "/other");
    same := first == second;
    configuredUrl := second.baseUrl;
  }

  /** What `error.response?.data?.message` reads: nothing (no response, no
      body or no such field), a string, or an array of strings, the shape of
      the back end's validation replies. */
  datatype ResponseMessage = NoMessage | TextMessage(text: string) | ListMessage(items: seq<string>)

  /** JavaScript truthiness of that value: a string when it is not empty,
      an array always, even an empty one. */
  predicate IsTruthy(m: ResponseMessage)
  {
    (m.TextMessage? && m.text != "") || m.ListMessage?
  }

  /** `items.join(",")`, the text `new Error(items)` takes for an array. */
  function JoinComma(items: seq<string>): (r: string)
    ensures |items| >= 1 ==> StartsWith(r, items[0])
    ensures r == "" <==> |items| == 0 || (|items| == 1 && items[0] == "")
  {
    if |items| == 0 then ""
    else if |items| == 1 then items[0]
    else items[0] + "," + JoinComma(items[1..])
  }

  /** The text of a truthy response message as `new Error` converts it. */
  function MessageText(m: ResponseMessage): (text: string)
    requires IsTruthy(m)
  {
    match m
    case TextMessage(s) => s
    case ListMessage(items) => JoinComma(items)
  }

  /** What a request method can catch: an axios error (with the `message` of
      its response body and its own `message`) or any other thrown value. */
  datatype CaughtError = AxiosError(responseMessage: ResponseMessage, message: string) | OtherError(payload: string)

  /** What `handleError` throws: a new `Error` with a message, or the caught
      value itself. */
  datatype Thrown = NewError(message: string) | Rethrown(original: CaughtError)

  /** `handleError`: it always throws. For an axios error the message is the
      first truthy one of the response's message, the error's message and
      "An error occurred", converted to text; anything else is rethrown
      unchanged. The fallback cannot apply to an array: an empty array, or
      one holding a single empty string, is truthy and yields an error with
      an empty message. */
  function HandleError(e: CaughtError): (t: Thrown)
    ensures e.OtherError? <==> t == Rethrown(e)
    ensures e.AxiosError? ==> t.NewError?
    ensures e.AxiosError? && e.responseMessage.TextMessage? && e.responseMessage.text != "" ==>
              t.message == e.responseMessage.text
    ensures e.AxiosError? && e.responseMessage.ListMessage? ==> t.message == JoinComma(e.responseMessage.items)
    ensures e.AxiosError? && !IsTruthy(e.responseMessage) && e.message != "" ==> t.message == e.message
    ensures e.AxiosError? && !IsTruthy(e.responseMessage) && e.message == "" ==> t.message == DefaultErrorMessage
    ensures e.AxiosError? ==>
              (t.message == "" <==> e.responseMessage.ListMessage?
                                    && (|e.responseMessage.items| == 0
                                        || (|e.responseMessage.items| == 1 && e.responseMessage.items[0] == "")))
  {
    match e
    case AxiosError(responseMessage, message) =>
      NewError(if IsTruthy(responseMessage) then MessageText(responseMessage)
               else if message != "" then message
               else DefaultErrorMessage)
    case OtherError(_) => Rethrown(e)
  }

  datatype HttpMethod = Get | Post | Put | Patch | Delete

  /** A request id as `update` accepts it: a string or a number. */
  datatype Id = TextId(text: string) | NumberId(number: int)

  /** The id as a template literal writes it. */
  function IdText(id: Id): (text: string)
  {
    match id
    case TextId(s) => s
    case NumberId(n) => IntText(n)
  }

  /** `update(url, id, data)`: a PATCH whose path is `url`, one slash, then
      the id's text. */
  function Update(url: string, id: Id): (r: (HttpMethod, string))
    ensures r.0 == Patch
    ensures StartsWith(r.1, url) && |r.1| > |url| && r.1[|url|] == '/' && r.1[|url| + 1..] == IdText(id)
  {
    (Patch, url + "/" + IdText(id))
  }

  /** What a request method resolves with: the response data, or what
      `handleError` throws. */
  datatype Settled = Data(body: string) | Threw(thrown: Thrown)

  /** The common body of `get`, `post`, `put`, `patch` and `delete`: the
      client's response data, or the caught error passed to `handleError`. */
  function Settle(response: Result): (r: Settled)
    ensures response.Ok? ==> r == Data(response.body)
    ensures response.Err? ==> r.Threw? && r.thrown == HandleError(response.error)
  {
    match response
    case Ok(body) => Data(body)
    case Err(e) => Threw(HandleError(e))
  }

  /** The client's reply to a request: response data, or a caught error. */
  datatype Result = Ok(body: string) | Err(error: CaughtError)

  /** `getImageUrl(path)`: the image server's origin, then the path with
      exactly one slash in between when the path lacks its own. */
  function GetImageUrl(imageServerUrl: string, path: string): (r: string)
    ensures StartsWith(r, imageServerUrl) && |r| > |imageServerUrl| && r[|imageServerUrl|] == '/'
    ensures StartsWith(path, "/") ==> r[|imageServerUrl|..] == path
    ensures !StartsWith(path, "/") ==> r[|imageServerUrl| + 1..] == path
  {
    imageServerUrl + (if StartsWith(path, "/") then path else "/" + path)
  }

  /** A path with its own leading slash and the same path without it give
      the same URL: the helper never doubles a slash it adds. */
  lemma ImageUrlSlashNotDoubled(imageServerUrl: string, q: string)
    requires !StartsWith(q, "/")
    ensures GetImageUrl(imageServerUrl, "/" + q) == GetImageUrl(imageServerUrl, q)
  {
    assert StartsWith("/" + q, "/");
  }
}
