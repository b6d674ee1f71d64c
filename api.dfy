/**
 * The API dispatch layer of the blog front end (src/service/api.js):
 * response normalisation, error classification with the session-expiry
 * side effect, the request interceptor, the request each call wrapper
 * builds, and the registration of one wrapper per configured service.
 *
 * The transport itself is not modelled: what the server (or the network)
 * did is an input, `Outcome`. The notification messages, the access token
 * returned by `getAccessToken()` and the request type returned by
 * `getType(...)` are parameters.
 */
module Api {
  import opened Js
  import opened Session

  // ---------------------------------------------------------------------
  // Data model

  /** A transport response: HTTP status, parsed body, and the response's own `msg` and `code` properties. */
  datatype Response = Response(status: int, data: JsValue, msg: JsValue, code: JsValue)

  /** A transport failure: the response if the server answered, and whether a request was sent at all. */
  datatype TransportError = TransportError(response: Option<Response>, requestSent: bool)

  /** What the transport made of one request: a resolved response or a rejected one. */
  datatype Outcome = Responded(response: Response) | Rejected(error: TransportError)

  /** The `code` of an error result: an HTTP status, or the empty string when there was no response. */
  datatype ErrorCode = StatusCode(status: int) | NoCode

  /**
   * The uniform result: `{isSuccess, data}`, `{isFailure, status, msg, code}` or `{isError, msg, code}`.
   * The `code` of a failure is kept as `responseCode`, since it is any value the response carries.
   */
  datatype ApiResult =
    | Success(data: JsValue)
    | Failure(status: int, msg: JsValue, responseCode: JsValue)
    | Error(msg: JsValue, code: ErrorCode)

  /** What a component's `await API.x(...)` produced: a returned result, or a thrown value. */
  datatype Awaited = Returned(result: ApiResult) | Threw(reason: JsValue)

  /** The three generic messages of the notification table. */
  datatype Notices = Notices(responseFailure: string, requestFailure: string, networkError: string)

  const SessionExpiredMessage := "Session expired. Please login again."
  const SessionExpiredStatus := 403
  const OkStatus := 200

  // ---------------------------------------------------------------------
  // Response normalisation

  /** `processResponse`: success only for status 200; any other status, 201 and 204 included, is a failure. */
  function ProcessResponse(response: Response): (r: ApiResult)
    ensures r.Success? <==> response.status == OkStatus
    ensures r.Success? ==> r.data == response.data
    ensures !r.Success? ==> r.Failure? && r.status == response.status && r.responseCode == response.code
    ensures !r.Success? ==> r.msg == Or(Prop(response.data, "msg"), response.msg)
    ensures !r.Error?
  {
    if response.status == OkStatus then Success(response.data)
    else Failure(response.status, Or(Prop(response.data, "msg"), response.msg), response.code)
  }

  // ---------------------------------------------------------------------
  // Error classification

  /** The one failure that expires the session: the server answered with 403. */
  predicate ExpiresSession(e: TransportError) {
    e.response.Some? && e.response.value.status == SessionExpiredStatus
  }

  /**
   * The result `ProcessError` returns. The three causes are tried in order:
   * a response, then a request without response, then neither.
   */
  function Classify(e: TransportError, notices: Notices): (r: ApiResult)
    ensures r.Error?
    ensures e.response.Some? ==> r.code == StatusCode(e.response.value.status)
    ensures e.response.None? ==> r.code == NoCode
    ensures r.code == StatusCode(SessionExpiredStatus) <==> ExpiresSession(e)
    ensures ExpiresSession(e) ==> r.msg == Str(SessionExpiredMessage)
    ensures e.response.Some? && !ExpiresSession(e) ==>
              r.msg == Or(Prop(e.response.value.data, "msg"), Str(notices.responseFailure))
    ensures e.response.None? && e.requestSent ==> r.msg == Str(notices.requestFailure)
    ensures e.response.None? && !e.requestSent ==> r.msg == Str(notices.networkError)
  {
    match e.response
    case Some(response) =>
      if response.status == SessionExpiredStatus then
        Error(Str(SessionExpiredMessage), StatusCode(response.status))
      else
        Error(Or(Prop(response.data, "msg"), Str(notices.responseFailure)), StatusCode(response.status))
    case None =>
      if e.requestSent then Error(Str(notices.requestFailure), NoCode)
      else Error(Str(notices.networkError), NoCode)
  }

  /** A present response decides the result whatever the request says; a sent request decides it over a setup failure. */
  lemma ClassificationOrder(response: Response, notices: Notices)
    ensures Classify(TransportError(Some(response), true), notices)
         == Classify(TransportError(Some(response), false), notices)
    ensures Classify(TransportError(None, true), notices).msg == Str(notices.requestFailure)
  {
  }

  /** `ProcessError`: classifies the failure; a 403 clears the whole session store, nothing else touches it. */
  method ProcessError(e: TransportError, notices: Notices, store: SessionStore) returns (r: ApiResult)
    modifies store
    ensures r == Classify(e, notices)
    ensures store.items == if ExpiresSession(e) then map[] else old(store.items)
  {
    if e.response.Some? {
      if e.response.value.status == SessionExpiredStatus {
        store.Clear();
      }
    }
    r := Classify(e, notices);
  }

  /** The response interceptor: resolved responses are normalised, rejected ones classified. */
  method Settle(outcome: Outcome, notices: Notices, store: SessionStore) returns (r: ApiResult)
    modifies store
    ensures outcome.Responded? ==> r == ProcessResponse(outcome.response)
    ensures outcome.Rejected? ==> r == Classify(outcome.error, notices)
    ensures store.items ==
              if outcome.Rejected? && ExpiresSession(outcome.error) then map[] else old(store.items)
  {
    match outcome
    case Responded(response) =>
      r := ProcessResponse(response);
    case Rejected(error) =>
      r := ProcessError(error, notices, store);
  }

  /**
   * The rejection reason the response interceptor produces: `ProcessError`
   * is `async`, so the reason is the promise it returns, an object with no
   * own properties (in particular no `msg`).
   */
  const PendingResult: JsValue := Obj(map[])

  /**
   * What `await API.userSignup(...)` / `await API.userLogin(...)` produces.
   * The wrapper's `catch` returns the rejection reason, and an `async`
   * function returning a promise resolves to that promise's value, so a
   * rejected request also comes back as a returned, classified result.
   */
  method CallExplicit(outcome: Outcome, notices: Notices, store: SessionStore) returns (a: Awaited)
    modifies store
    ensures a == Returned(if outcome.Responded? then ProcessResponse(outcome.response)
                          else Classify(outcome.error, notices))
    ensures outcome.Rejected? ==> a.result.Error?
    ensures store.items ==
              if outcome.Rejected? && ExpiresSession(outcome.error) then map[] else old(store.items)
  {
    var r := Settle(outcome, notices, store);
    a := Returned(r);
  }

  /**
   * What `await API.<service>(...)` produces for a generated wrapper, which
   * returns the transport's promise as it is: a rejected request throws the
   * interceptor's rejection reason.
   */
  method CallGenerated(outcome: Outcome, notices: Notices, store: SessionStore) returns (a: Awaited)
    modifies store
    ensures outcome.Responded? ==> a == Returned(ProcessResponse(outcome.response))
    ensures outcome.Rejected? ==> a == Threw(PendingResult)
    ensures store.items ==
              if outcome.Rejected? && ExpiresSession(outcome.error) then map[] else old(store.items)
  {
    var r := Settle(outcome, notices, store);
    a := if outcome.Responded? then Returned(r) else Threw(PendingResult);
  }

  // ---------------------------------------------------------------------
  // Request shaping

  /** The `TYPE` that `getType` attaches to a request: query parameters, or a path segment. */
  datatype TypeSpec = TypeSpec(params: JsValue, query: JsValue)

  /** A request configuration as handed to the transport. */
  datatype RequestConfig = RequestConfig(
    verb: string,
    url: string,
    data: JsValue,
    responseType: JsValue,
    headers: map<string, JsValue>,
    typeSpec: Option<TypeSpec>,
    params: JsValue)

  predicate HasParams(c: RequestConfig) {
    c.typeSpec.Some? && Truthy(c.typeSpec.value.params)
  }

  predicate HasQuery(c: RequestConfig) {
    c.typeSpec.Some? && Truthy(c.typeSpec.value.query)
  }

  /** The request interceptor: truthy `TYPE.params` become the query parameters, else a truthy `TYPE.query` is appended to the URL. */
  function ShapeRequest(c: RequestConfig): (r: RequestConfig)
    ensures r.(url := c.url, params := c.params) == c
    ensures HasParams(c) ==> r.params == c.typeSpec.value.params && r.url == c.url
    ensures !HasParams(c) && HasQuery(c) ==>
              r.url == c.url + "/" + ToText(c.typeSpec.value.query) && r.params == c.params
    ensures !HasParams(c) && !HasQuery(c) ==> r == c
  {
    if HasParams(c) then c.(params := c.typeSpec.value.params)
    else if HasQuery(c) then c.(url := c.url + "/" + ToText(c.typeSpec.value.query))
    else c
  }

  /** When `TYPE` carries both, the parameters win and the URL is left alone. */
  lemma ParamsWinOverQuery(c: RequestConfig)
    requires HasParams(c) && HasQuery(c)
    ensures ShapeRequest(c).url == c.url
    ensures ShapeRequest(c).params == c.typeSpec.value.params
  {
  }

  /** The configuration object the interceptor receives and updates in place. */
  class PendingRequest {
    var url: string
    var params: JsValue
    const verb: string
    const data: JsValue
    const responseType: JsValue
    const headers: map<string, JsValue>
    const typeSpec: Option<TypeSpec>

    /** The config object as the interceptor sees it. */
    function Value(): (r: RequestConfig)
      reads this
      ensures r.url == url && r.params == params && r.verb == verb && r.data == data
      ensures r.responseType == responseType && r.headers == headers && r.typeSpec == typeSpec
    {
      RequestConfig(verb, url, data, responseType, headers, typeSpec, params)
    }

    constructor (c: RequestConfig)
      ensures Value() == c
    {
      url, params := c.url, c.params;
      verb, data, responseType, headers, typeSpec := c.verb, c.data, c.responseType, c.headers, c.typeSpec;
    }

    /** The interceptor's body: it assigns `config.params` or `config.url` and returns the same object. */
    method Intercept()
      modifies this
      ensures Value() == ShapeRequest(old(Value()))
    {
      if typeSpec.Some? && Truthy(typeSpec.value.params) {
        params := typeSpec.value.params;
      } else if typeSpec.Some? && Truthy(typeSpec.value.query) {
        url := url + "/" + ToText(typeSpec.value.query);
      }
    }
  }

  // ---------------------------------------------------------------------
  // Call wrappers

  /** One entry of the service table: where and how to call. */
  datatype Descriptor = Descriptor(verb: string, url: string, responseType: JsValue)

  const DeleteMethod := "DELETE"
  const AuthorizationHeader := "authorization"

  /** The request a generated wrapper hands to the transport for `body`. */
  function GeneratedRequest(d: Descriptor, body: JsValue, accessToken: JsValue, typeSpec: Option<TypeSpec>): (r: RequestConfig)
    ensures d.verb == DeleteMethod ==> r.data == Str("")
    ensures d.verb != DeleteMethod ==> r.data == body
    ensures AuthorizationHeader in r.headers && r.headers[AuthorizationHeader] == accessToken
    ensures r.verb == d.verb && r.url == d.url && r.responseType == d.responseType
    ensures r.typeSpec == typeSpec && r.params == Undefined
  {
    RequestConfig(
      d.verb, d.url,
      if d.verb == DeleteMethod then Str("") else body,
      d.responseType,
      map[AuthorizationHeader := accessToken],
      typeSpec,
      Undefined)
  }

  /** The request `API.userSignup` / `API.userLogin` send: a POST of the form, with no authorization header. */
  function ExplicitPostRequest(url: string, body: JsValue): (r: RequestConfig)
    ensures r.verb == "post" && r.url == url && r.data == body
    ensures AuthorizationHeader !in r.headers
    ensures ShapeRequest(r) == r
  {
    RequestConfig("post", url, body, Undefined, map[], None, Undefined)
  }

  /** A member of the `API` object. */
  datatype Wrapper = ExplicitPost(key: string) | Generated(descriptor: Descriptor)

  const SignupKey := "userSignup"
  const LoginKey := "userLogin"

  /**
   * The request a wrapper sends. An explicit wrapper reads its URL from the
   * service table when called; without an entry it fails before sending (`None`).
   */
  function WrapperRequest(w: Wrapper, services: map<string, Descriptor>, body: JsValue,
                          accessToken: JsValue, typeSpec: Option<TypeSpec>): (r: Option<RequestConfig>)
    ensures w.Generated? ==> r == Some(GeneratedRequest(w.descriptor, body, accessToken, typeSpec))
    ensures w.ExplicitPost? ==> (r.Some? <==> w.key in services)
    ensures w.ExplicitPost? && r.Some? ==> r.value == ExplicitPostRequest(services[w.key].url, body)
  {
    match w
    case Generated(d) => Some(GeneratedRequest(d, body, accessToken, typeSpec))
    case ExplicitPost(key) =>
      if key in services then Some(ExplicitPostRequest(services[key].url, body)) else None
  }

  /** The service entries in table order have distinct keys, as `Object.entries` yields them. */
  predicate DistinctKeys(entries: seq<(string, Descriptor)>) {
    forall i, j :: 0 <= i < j < |entries| ==> entries[i].0 != entries[j].0
  }

  function KeysOf(entries: seq<(string, Descriptor)>): (r: set<string>)
    ensures forall i :: 0 <= i < |entries| ==> entries[i].0 in r
    ensures forall k :: k in r ==> exists i :: 0 <= i < |entries| && entries[i].0 == k
  {
    set i | 0 <= i < |entries| :: entries[i].0
  }

  /**
   * The members every object inherits from `Object.prototype`. Each is a
   * function (or, for `__proto__`, an object), so `API[key]` is truthy for
   * them even before anything is assigned.
   */
  const InheritedMembers: set<string> := {
    "constructor", "hasOwnProperty", "isPrototypeOf", "propertyIsEnumerable",
    "toLocaleString", "toString", "valueOf", "__proto__",
    "__defineGetter__", "__defineSetter__", "__lookupGetter__", "__lookupSetter__"
  }

  /** `API[key]` is truthy: an own wrapper, or an inherited member. */
  predicate Defined(methods: map<string, Wrapper>, key: string) {
    key in methods || key in InheritedMembers
  }

  /** The exported `API` object. */
  class ApiTable {
    var methods: map<string, Wrapper>

    /** The object literal: only the explicit signup and login wrappers. */
    constructor ()
      ensures methods == map[SignupKey := ExplicitPost(SignupKey), LoginKey := ExplicitPost(LoginKey)]
    {
      methods := map[SignupKey := ExplicitPost(SignupKey), LoginKey := ExplicitPost(LoginKey)];
    }

    /**
     * The registration loop: one generated wrapper per service key for which
     * `API[key]` is not yet truthy, which also skips the inherited members.
     */
    method RegisterServices(entries: seq<(string, Descriptor)>)
      requires DistinctKeys(entries)
      modifies this
      ensures methods.Keys == old(methods).Keys + (KeysOf(entries) - InheritedMembers)
      ensures forall k :: k in old(methods) ==> methods[k] == old(methods)[k]
      ensures forall i :: 0 <= i < |entries| && !Defined(old(methods), entries[i].0) ==>
                methods[entries[i].0] == Generated(entries[i].1)
    {
      var i := 0;
      while i < |entries|
        invariant 0 <= i <= |entries|
        invariant methods.Keys == old(methods).Keys + (KeysOf(entries[..i]) - InheritedMembers)
        invariant forall k :: k in old(methods) ==> methods[k] == old(methods)[k]
        invariant forall j :: 0 <= j < i && !Defined(old(methods), entries[j].0) ==>
                    methods[entries[j].0] == Generated(entries[j].1)
      {
        var (key, descriptor) := entries[i];
        if !Defined(methods, key) {
          methods := methods[key := Generated(descriptor)];
        }
        assert entries[..i + 1] == entries[..i] + [entries[i]];
        assert KeysOf(entries[..i + 1]) == KeysOf(entries[..i]) + {key};
        i := i + 1;
      }
      assert entries[..i] == entries;
    }
  }

  /**
   * The module's initialisation of `API`: the explicit signup and login
   * wrappers, then one generated wrapper per further service entry.
   */
  method InitApi(entries: seq<(string, Descriptor)>) returns (api: ApiTable)
    requires DistinctKeys(entries)
    ensures api.methods.Keys == {SignupKey, LoginKey} + (KeysOf(entries) - InheritedMembers)
    ensures api.methods[SignupKey] == ExplicitPost(SignupKey) && api.methods[LoginKey] == ExplicitPost(LoginKey)
    ensures forall i :: 0 <= i < |entries| && entries[i].0 != SignupKey && entries[i].0 != LoginKey
                        && entries[i].0 !in InheritedMembers ==>
              api.methods[entries[i].0] == Generated(entries[i].1)
  {
    api := new ApiTable();
    api.RegisterServices(entries);
  }
}
