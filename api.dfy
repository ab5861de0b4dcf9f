/** The client's HTTP helpers (client/src/services/api.js): the request and
    response interceptors, the unwrapping of nested update responses, the
    update error message, the OAuth URLs and the task endpoint paths.

    The HTTP call itself is a parameter: an update either produced a response
    body or failed with an optional status. */
module Api {
  import opened Wrappers
  import Browser

  const DefaultApiUrl: string := "http://localhost:5000/api"
  const BearerPrefix: string := "Bearer "
  const LoginPath: string := "/login"
  const Unauthorized: nat := 401

  // ---------------------------------------------------------------------
  // JSON values with JavaScript truthiness and property access
  // ---------------------------------------------------------------------

  datatype Value =
    | Undefined
    | Null
    | Bool(b: bool)
    | Num(n: int)
    | Str(s: string)
    | Arr(items: seq<Value>)
    | Obj(fields: map<string, Value>)

  /** `if (v)`: false, 0, "", null and undefined are falsy; objects and arrays
      are truthy. */
  predicate IsTruthy(v: Value) {
    match v
    case Undefined => false
    case Null => false
    case Bool(b) => b
    case Num(n) => n != 0
    case Str(s) => s != ""
    case Arr(_) => true
    case Obj(_) => true
  }

  /** `v.key` on a value that is not null or undefined: a missing field and
      any property of a non-object read as `undefined`. */
  function Prop(v: Value, key: string): (r: Value)
    requires v != Undefined && v != Null
    ensures v.Obj? && key in v.fields ==> r == v.fields[key]
    ensures !(v.Obj? && key in v.fields) ==> r == Undefined
  {
    if v.Obj? && key in v.fields then v.fields[key] else Undefined
  }

  /** `response.data && response.data.data && response.data.data.task`, as
      three successive tests on a response object. */
  predicate HasTask(response: Value)
    requires response.Obj?
  {
    var d := Prop(response, "data");
    IsTruthy(d) && IsTruthy(Prop(d, "data")) && IsTruthy(Prop(Prop(d, "data"), "task"))
  }

  /** `response.data && response.data.data`: the guard both unwrappings test
      second. */
  predicate HasInner(response: Value)
    requires response.Obj?
  {
    var d := Prop(response, "data");
    IsTruthy(d) && IsTruthy(Prop(d, "data"))
  }

  /** The result of the exported `updateTask` (lines 85-97): the deepest of
      `data.data.task`, `data.data` and `data` that the guards reach. The last
      two branches of api.js are identical, so a falsy `data` is returned
      as it is. */
  function UnwrapUpdate(response: Value): (r: Value)
    requires response.Obj?
    ensures HasTask(response) ==> r == Prop(Prop(Prop(response, "data"), "data"), "task") && IsTruthy(r)
    ensures !HasTask(response) && HasInner(response) ==> r == Prop(Prop(response, "data"), "data") && IsTruthy(r)
    ensures !HasInner(response) ==> r == Prop(response, "data")
  {
    var d := Prop(response, "data");
    if IsTruthy(d) && IsTruthy(Prop(d, "data")) && IsTruthy(Prop(Prop(d, "data"), "task")) then
      Prop(Prop(d, "data"), "task")
    else if IsTruthy(d) && IsTruthy(Prop(d, "data")) then
      Prop(d, "data")
    else if IsTruthy(d) then
      d
    else
      d
  }

  /** The result of `tasksAPI.updateTask` (lines 64-72): `{data: data.data.task}`,
      else `{data: data.data}`, else the response itself. */
  function UnwrapUpdateResponse(response: Value): (r: Value)
    requires response.Obj?
    ensures r.Obj?
    ensures HasInner(response) ==> r.fields.Keys == {"data"}
    ensures !HasInner(response) ==> r == response
  {
    var d := Prop(response, "data");
    if IsTruthy(d) && IsTruthy(Prop(d, "data")) && IsTruthy(Prop(Prop(d, "data"), "task")) then
      Obj(map["data" := Prop(Prop(d, "data"), "task")])
    else if IsTruthy(d) && IsTruthy(Prop(d, "data")) then
      Obj(map["data" := Prop(d, "data")])
    else
      response
  }

  /** The two unwrappings agree: the `data` of what `tasksAPI.updateTask`
      resolves to is what the exported `updateTask` returns. */
  lemma UnwrappingsAgree(response: Value)
    requires response.Obj?
    ensures Prop(UnwrapUpdateResponse(response), "data") == UnwrapUpdate(response)
  {
    var r := UnwrapUpdateResponse(response);
    if HasInner(response) {
      assert "data" in r.fields;
    }
  }

  /** Unwrapping never invents data: the result is the body or a field nested
      inside it. */
  lemma UnwrapUpdateIsNested(response: Value)
    requires response.Obj?
    ensures var d := Prop(response, "data");
      || UnwrapUpdate(response) == d
      || (d.Obj? && "data" in d.fields && UnwrapUpdate(response) == d.fields["data"])
      || (d.Obj? && "data" in d.fields && d.fields["data"].Obj? && "task" in d.fields["data"].fields
          && UnwrapUpdate(response) == d.fields["data"].fields["task"])
  {
  }

  // ---------------------------------------------------------------------
  // The update error message
  // ---------------------------------------------------------------------

  predicate IsDigits(s: string) {
    forall i :: 0 <= i < |s| ==> '0' <= s[i] <= '9'
  }

  function DigitChar(d: nat): char
    requires d < 10
  {
    "0123456789"[d]
  }

  /** How a template literal prints a non-negative integer. */
  function Decimal(n: nat): (r: string)
    ensures |r| >= 1
    ensures IsDigits(r)
    ensures r[0] == '0' <==> n == 0
    ensures r[0] == '0' ==> |r| == 1
    decreases n
  {
    if n < 10 then [DigitChar(n)] else Decimal(n / 10) + [DigitChar(n % 10)]
  }

  function ParseDecimal(s: string): nat
    requires IsDigits(s)
    decreases |s|
  {
    if s == [] then 0
    else 10 * ParseDecimal(s[..|s| - 1]) + (s[|s| - 1] as int - '0' as int)
  }

  /** Printing a status loses nothing: it reads back as the same number. */
  lemma {:induction false} DecimalRoundTrip(n: nat)
    ensures ParseDecimal(Decimal(n)) == n
    decreases n
  {
    var s := Decimal(n);
    if n >= 10 {
      DecimalRoundTrip(n / 10);
      assert s[..|s| - 1] == Decimal(n / 10);
    }
  }

  const UpdateFailurePrefix: string := "Failed to update task: "
  const UnknownError: string := "Unknown error"

  /** The message thrown when an update fails (line 100):
      `error.response?.status || 'Unknown error'`, so a missing status and a
      status of 0 both read "Unknown error". */
  function UpdateFailureMessage(status: Option<nat>): (m: string)
    ensures |m| > |UpdateFailurePrefix| && m[..|UpdateFailurePrefix|] == UpdateFailurePrefix
    ensures status.Some? && status.value != 0 ==>
      IsDigits(m[|UpdateFailurePrefix|..]) && ParseDecimal(m[|UpdateFailurePrefix|..]) == status.value
    ensures status.Some? && status.value != 0 ==> m[|UpdateFailurePrefix|] != '0'
    ensures !(status.Some? && status.value != 0) ==> m[|UpdateFailurePrefix|..] == UnknownError
  {
    if status.Some? && status.value != 0 then
      var digits := Decimal(status.value);
      DecimalRoundTrip(status.value);
      assert (UpdateFailurePrefix + digits)[|UpdateFailurePrefix|..] == digits;
      UpdateFailurePrefix + digits
    else
      UpdateFailurePrefix + UnknownError
  }

  /** The outcome of `api.put` as seen by `updateTask`. */
  datatype HttpOutcome = Response(response: Value) | Failure(status: Option<nat>)

  /** The exported `updateTask` (lines 78-102): the unwrapped body, or the
      failure message. */
  function UpdateTask(outcome: HttpOutcome): (r: Result<Value, string>)
    requires outcome.Response? ==> outcome.response.Obj?
    ensures outcome.Response? ==> r == Ok(UnwrapUpdate(outcome.response))
    ensures outcome.Failure? ==> r == Err(UpdateFailureMessage(outcome.status))
  {
    match outcome
    case Response(response) => Ok(UnwrapUpdate(response))
    case Failure(status) => Err(UpdateFailureMessage(status))
  }

  /** Different known statuses give different messages, and none of them is
      the "Unknown error" message. */
  lemma FailureMessagesDistinguishStatus(s1: Option<nat>, s2: Option<nat>)
    requires s1.Some? && s1.value != 0
    ensures UpdateFailureMessage(s1) != UpdateFailureMessage(None)
    ensures s2.Some? && s2.value != 0 && s1 != s2 ==> UpdateFailureMessage(s1) != UpdateFailureMessage(s2)
  {
    var p := |UpdateFailurePrefix|;
    var m1 := UpdateFailureMessage(s1);
    assert m1[p] != UnknownError[0];
    if s2.Some? && s2.value != 0 && s1 != s2 {
      assert ParseDecimal(m1[p..]) != ParseDecimal(UpdateFailureMessage(s2)[p..]);
    }
  }

  // ---------------------------------------------------------------------
  // URLs and endpoint paths
  // ---------------------------------------------------------------------

  /** `import.meta.env.VITE_API_URL || 'http://localhost:5000/api'`. */
  function ApiBase(apiEnv: Option<string>): (r: string)
    ensures Truthy(apiEnv) ==> r == apiEnv.value
    ensures !Truthy(apiEnv) ==> r == DefaultApiUrl
  {
    if Truthy(apiEnv) then apiEnv.value else DefaultApiUrl
  }

  datatype Provider = Google | GitHub | LinkedIn

  function ProviderPath(p: Provider): string {
    match p
    case Google => "/auth/google"
    case GitHub => "/auth/github"
    case LinkedIn => "/auth/linkedin"
  }

  /** The page `authAPI.googleAuth`, `githubAuth` and `linkedinAuth` open
      (lines 41-55). */
  function OAuthUrl(apiEnv: Option<string>, p: Provider): (r: string)
    ensures |r| > |ApiBase(apiEnv)| && r[..|ApiBase(apiEnv)|] == ApiBase(apiEnv)
    ensures p == Google ==> r[|ApiBase(apiEnv)|..] == "/auth/google"
    ensures p == GitHub ==> r[|ApiBase(apiEnv)|..] == "/auth/github"
    ensures p == LinkedIn ==> r[|ApiBase(apiEnv)|..] == "/auth/linkedin"
  {
    ApiBase(apiEnv) + ProviderPath(p)
  }

  /** Each provider has its own URL under the same base. */
  lemma OAuthUrlsDistinct(apiEnv: Option<string>, p: Provider, q: Provider)
    ensures OAuthUrl(apiEnv, p) == OAuthUrl(apiEnv, q) <==> p == q
  {
    if OAuthUrl(apiEnv, p) == OAuthUrl(apiEnv, q) {
      var b := |ApiBase(apiEnv)|;
      assert OAuthUrl(apiEnv, p)[b..] == ProviderPath(p);
      assert OAuthUrl(apiEnv, q)[b..] == ProviderPath(q);
    }
  }

  datatype HttpMethod = Get | Post | Put | Delete

  /** A request as the helpers hand it to axios: verb, path under the base
      URL, query parameters (`Undefined` when none) and body. */
  datatype Request = Request(verb: HttpMethod, path: string, query: Value, body: Value)

  const TasksPath: string := "/tasks"

  function TaskPath(id: string): (r: string)
    ensures |r| == |TasksPath| + 1 + |id|
    ensures r[..|TasksPath| + 1] == TasksPath + "/"
    ensures r[|TasksPath| + 1..] == id
  {
    TasksPath + "/" + id
  }

  /** Task paths are one per id. */
  lemma TaskPathInjective(a: string, b: string)
    ensures TaskPath(a) == TaskPath(b) <==> a == b
  {
    if TaskPath(a) == TaskPath(b) {
      assert a == TaskPath(a)[|TasksPath| + 1..];
    }
  }

  // The task endpoints (lines 59-76).

  /** `getTasks(params = {})`: the filters travel as query parameters; an
      omitted argument becomes the empty object. */
  function GetTasks(params: Value): (r: Request)
    ensures r.verb == Get && r.path == TasksPath && r.body == Undefined
    ensures params == Undefined ==> r.query == Obj(map[])
    ensures params != Undefined ==> r.query == params
  {
    Request(Get, TasksPath, if params == Undefined then Obj(map[]) else params, Undefined)
  }

  function GetTask(id: string): (r: Request)
    ensures r.verb == Get && r.path == TaskPath(id) && r.query == Undefined && r.body == Undefined
  {
    Request(Get, TaskPath(id), Undefined, Undefined)
  }

  function CreateTask(task: Value): (r: Request)
    ensures r.verb == Post && r.path == TasksPath && r.query == Undefined && r.body == task
  {
    Request(Post, TasksPath, Undefined, task)
  }

  function UpdateTaskRequest(id: string, updates: Value): (r: Request)
    ensures r.verb == Put && r.path == TaskPath(id) && r.query == Undefined && r.body == updates
  {
    Request(Put, TaskPath(id), Undefined, updates)
  }

  function DeleteTask(id: string): (r: Request)
    ensures r.verb == Delete && r.path == TaskPath(id) && r.query == Undefined && r.body == Undefined
  {
    Request(Delete, TaskPath(id), Undefined, Undefined)
  }

  /** Sharing posts `{email}` to the task's "/share" path. */
  function ShareTask(id: string, email: string): (r: Request)
    ensures r.verb == Post && r.path == TaskPath(id) + "/share" && r.query == Undefined
    ensures r.body.Obj? && r.body.fields == map["email" := Str(email)]
  {
    Request(Post, TaskPath(id) + "/share", Undefined, Obj(map["email" := Str(email)]))
  }

  function GetMe(): (r: Request)
    ensures r.verb == Get && r.path == "/auth/me" && r.query == Undefined && r.body == Undefined
  {
    Request(Get, "/auth/me", Undefined, Undefined)
  }

  function Logout(): (r: Request)
    ensures r.verb == Post && r.path == "/auth/logout" && r.query == Undefined && r.body == Undefined
  {
    Request(Post, "/auth/logout", Undefined, Undefined)
  }

  // ---------------------------------------------------------------------
  // Interceptors
  // ---------------------------------------------------------------------

  class RequestConfig {
    var headers: map<string, string>

    constructor (headers: map<string, string>)
      ensures this.headers == headers
    {
      this.headers := headers;
    }
  }

  /** The request interceptor (lines 11-19): with a stored token the
      `Authorization` header becomes "Bearer " + token; otherwise the headers
      are left alone. The same config goes on. */
  method AttachToken(config: RequestConfig, storage: Browser.LocalStorage) returns (out: RequestConfig)
    modifies config
    ensures out == config
    ensures Truthy(storage.GetItem(Browser.TokenKey)) ==>
      config.headers == old(config.headers)["Authorization" := BearerPrefix + storage.GetItem(Browser.TokenKey).value]
    ensures !Truthy(storage.GetItem(Browser.TokenKey)) ==> config.headers == old(config.headers)
  {
    var token := storage.GetItem(Browser.TokenKey);
    if Truthy(token) {
      config.headers := config.headers["Authorization" := BearerPrefix + token.value];
    }
    out := config;
  }

  /** A failed request as the response interceptor sees it. */
  datatype HttpError = HttpError(status: Option<nat>)

  /** The response interceptor's error path (lines 28-34): a 401 removes the
      stored token and sends the page to "/login"; every error, 401 or not, is
      rejected again unchanged. */
  method RejectResponse(error: HttpError, storage: Browser.LocalStorage, location: Browser.Location)
    returns (rejected: HttpError)
    modifies storage, location
    ensures rejected == error
    ensures error.status == Some(Unauthorized) ==>
      storage.items == old(storage.items) - {Browser.TokenKey} && location.href == LoginPath
    ensures error.status != Some(Unauthorized) ==>
      storage.items == old(storage.items) && location.href == old(location.href)
  {
    if error.status == Some(Unauthorized) {
      storage.RemoveItem(Browser.TokenKey);
      location.href := LoginPath;
    }
    rejected := error;
  }
}
