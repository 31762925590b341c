/** The request helper of the console (`apiRequest`), the credential store it
    reads, the login/logout/isAuthenticated entry points that write it, and the
    query builders of the list endpoints. The network is not modelled: what
    `fetch` and `response.json()` produced is an input (`HttpOutcome`). */
module Api {
  import opened JsValues
  import opened SeqFilter

  const ApiBaseUrl: string := "http://localhost:3000/api"
  const TokenKey: string := "admin_token"
  const UserKey: string := "admin_user"
  const NetworkError: string := "Network error occurred"
  const RequestFailed: string := "Request failed"
  const LoginFailed: string := "Login failed"
  const LoginEndpoint: string := "/auth/login-admin"

  /** The parsed response body, or a body `response.json()` rejected. */
  datatype Body = Json(value: Val) | Unparsable

  /** What a call to the backend produced: `fetch` rejected, or a status and a body. */
  datatype HttpOutcome = Threw | Responded(status: int, body: Body)

  /** `response.ok` */
  predicate IsOk(status: int) {
    200 <= status <= 299
  }

  /** The `{ data } | { error }` object every accessor resolves to. */
  datatype Envelope = Data(data: Val) | Error(error: Val)

  /** What the helper actually returns: an error is always truthy, so callers
      may test `if (error)`. */
  type ApiResponse = e: Envelope | e.Data? || Truthy(e.error) witness Data(Null)

  /** `{ error, data } = ...; if (error || !data)`: the reply carries no usable data. */
  predicate Failed(r: ApiResponse) {
    r.Error? || !Truthy(r.data)
  }

  /** The `options` a caller passes: method, JSON body (before serialisation) and headers. */
  datatype RequestInit = RequestInit(verb: Option<string>, body: Option<Val>, headers: map<string, string>)

  /** What is handed to `fetch`. */
  datatype Request = Request(url: string, verb: Option<string>, headers: map<string, string>, body: Option<Val>)

  /** `token && { Authorization: ... }` adds the header only for a non-empty stored token. */
  predicate HasToken(token: Option<string>) {
    token.Some? && token.value != ""
  }

  /** The header object: the JSON content type, the bearer token when there is
      one, then the caller's headers, each later entry overriding an earlier one. */
  function RequestHeaders(token: Option<string>, custom: map<string, string>): (h: map<string, string>)
    ensures h.Keys == {"Content-Type"} + (if HasToken(token) then {"Authorization"} else {}) + custom.Keys
    ensures forall k :: k in custom ==> h[k] == custom[k]
    ensures "Content-Type" !in custom ==> h["Content-Type"] == "application/json"
    ensures "Authorization" !in custom ==> ("Authorization" in h <==> HasToken(token))
    ensures "Authorization" !in custom && HasToken(token) ==> h["Authorization"] == "Bearer " + token.value
  {
    var defaults := map["Content-Type" := "application/json"];
    var auth := if HasToken(token) then map["Authorization" := "Bearer " + token.value] else map[];
    defaults + auth + custom
  }

  /** How the helper turns an outcome into an envelope. A thrown `fetch`, a body
      that is not JSON, and a `null` body on an error status (reading `.error`
      of null throws) all end in the catch block. */
  function Respond(outcome: HttpOutcome): (r: ApiResponse)
    ensures r.Data? <==> outcome.Responded? && IsOk(outcome.status) && outcome.body.Json?
    ensures r.Data? ==> r.data == outcome.body.value
    ensures outcome.Threw? || outcome.body.Unparsable? ==> r == Error(Str(NetworkError))
    ensures outcome.Responded? && !IsOk(outcome.status) && outcome.body.Json? && !Nullish(outcome.body.value)
            ==> r.Error? && r.error == (if Truthy(Field(outcome.body.value, "error"))
                                        then Field(outcome.body.value, "error") else Str(RequestFailed))
  {
    match outcome
    case Threw => Error(Str(NetworkError))
    case Responded(status, body) =>
      match body
      case Unparsable => Error(Str(NetworkError))
      case Json(d) =>
        if IsOk(status) then Data(d)
        else if Nullish(d) then Error(Str(NetworkError))
        else Error(Or(Field(d, "error"), Str(RequestFailed)))
  }

  /** `localStorage`: a string-to-string store that survives reloads. */
  class LocalStorage {
    var items: map<string, string>

    constructor (initial: map<string, string>)
      ensures items == initial
    {
      items := initial;
    }

    /** `getItem(key)`, null when absent. */
    function GetItem(key: string): (r: Option<string>)
      reads this
      ensures r.Some? <==> key in items
      ensures r.Some? ==> r.value == items[key]
    {
      if key in items then Some(items[key]) else None
    }

    method SetItem(key: string, value: string)
      modifies this
      ensures items == old(items)[key := value]
    {
      items := items[key := value];
    }

    method RemoveItem(key: string)
      modifies this
      ensures items == old(items) - {key}
    {
      items := items - {key};
    }
  }

  /** `apiRequest(endpoint, options)`: reads the token, sends the request with the
      merged headers and resolves to an envelope. It has no `modifies` clause:
      whatever the status, it never writes or removes a stored key. */
  method ApiRequest(store: LocalStorage, endpoint: string, options: RequestInit, outcome: HttpOutcome)
    returns (sent: Request, r: ApiResponse)
    ensures sent.url == ApiBaseUrl + endpoint
    ensures sent.verb == options.verb && sent.body == options.body
    ensures sent.headers == RequestHeaders(store.GetItem(TokenKey), options.headers)
    ensures r == Respond(outcome)
  {
    var token := store.GetItem(TokenKey);
    var headers := RequestHeaders(token, options.headers);
    sent := Request(ApiBaseUrl + endpoint, options.verb, headers, options.body);
    r := Respond(outcome);
  }

  /** `isAuthenticated()` on the stored keys: a token is present and non-empty. */
  predicate Authenticated(items: map<string, string>) {
    TokenKey in items && items[TokenKey] != ""
  }

  function IsAuthenticated(store: LocalStorage): (b: bool)
    reads store
    ensures b <==> HasToken(store.GetItem(TokenKey))
  {
    Authenticated(store.items)
  }

  /** The request headers carry a bearer token exactly when the session counts
      as authenticated, unless the caller supplies its own Authorization header. */
  lemma AuthorizationIffAuthenticated(items: map<string, string>, custom: map<string, string>)
    requires "Authorization" !in custom
    ensures var token := if TokenKey in items then Some(items[TokenKey]) else None;
            && ("Authorization" in RequestHeaders(token, custom) <==> Authenticated(items))
            && (Authenticated(items) ==> RequestHeaders(token, custom)["Authorization"] == "Bearer " + items[TokenKey])
  {
  }

  // ---------------------------------------------------------------------------
  // Login and logout

  /** The stored keys and the envelope after `authApi.login`. */
  datatype LoginStep = LoginStep(items: map<string, string>, response: ApiResponse)

  /** The body of an OK login reply that carries a truthy token: the only case that writes. */
  predicate StoresToken(outcome: HttpOutcome) {
    && outcome.Responded? && IsOk(outcome.status) && outcome.body.Json?
    && !Nullish(outcome.body.value) && Truthy(Field(outcome.body.value, "token"))
  }

  /** `authApi.login`. The profile is stored as `JSON.stringify(data.user)`;
      serialisation is not modelled and is the parameter `stringify`. */
  function LoginSpec(items: map<string, string>, outcome: HttpOutcome, stringify: Val -> string): LoginStep {
    match outcome
    case Threw => LoginStep(items, Error(Str(NetworkError)))
    case Responded(status, body) =>
      match body
      case Unparsable => LoginStep(items, Error(Str(NetworkError)))
      case Json(d) =>
        if Nullish(d) then LoginStep(items, Error(Str(NetworkError)))
        else if !IsOk(status) then
          LoginStep(items, Error(Or(Or(Field(d, "error"), Field(d, "message")), Str(LoginFailed))))
        else if Truthy(Field(d, "token")) then
          LoginStep(items[TokenKey := ToJsString(Field(d, "token"))][UserKey := stringify(Field(d, "user"))], Data(d))
        else LoginStep(items, Data(d))
  }

  /** The request login sends: no token, only the JSON content type. */
  function LoginRequest(email: string, password: string): (r: Request)
    ensures r.url == ApiBaseUrl + LoginEndpoint && r.verb == Some("POST")
    ensures r.headers == map["Content-Type" := "application/json"] && "Authorization" !in r.headers
  {
    Request(ApiBaseUrl + LoginEndpoint, Some("POST"), map["Content-Type" := "application/json"],
            Some(Obj(map["email" := Str(email), "password" := Str(password)])))
  }

  method Login(store: LocalStorage, email: string, password: string, outcome: HttpOutcome, stringify: Val -> string)
    returns (sent: Request, r: ApiResponse)
    modifies store
    ensures sent == LoginRequest(email, password)
    ensures store.items == LoginSpec(old(store.items), outcome, stringify).items
    ensures r == LoginSpec(old(store.items), outcome, stringify).response
  {
    sent := LoginRequest(email, password);
    if outcome.Threw? || outcome.body.Unparsable? {
      return sent, Error(Str(NetworkError));
    }
    var data := outcome.body.value;
    if Nullish(data) {
      return sent, Error(Str(NetworkError));
    }
    if !IsOk(outcome.status) {
      return sent, Error(Or(Or(Field(data, "error"), Field(data, "message")), Str(LoginFailed)));
    }
    if Truthy(Field(data, "token")) {
      store.SetItem(TokenKey, ToJsString(Field(data, "token")));
      store.SetItem(UserKey, stringify(Field(data, "user")));
    }
    r := Data(data);
  }

  /** Login writes both keys exactly when the reply is OK and carries a truthy
      token; in every other case the stored keys are unchanged. */
  lemma LoginWritesOnlyOnToken(items: map<string, string>, outcome: HttpOutcome, stringify: Val -> string)
    ensures var step := LoginSpec(items, outcome, stringify);
            if StoresToken(outcome) then
              && step.response == Data(outcome.body.value)
              && step.items == items[TokenKey := ToJsString(Field(outcome.body.value, "token"))]
                                    [UserKey := stringify(Field(outcome.body.value, "user"))]
            else step.items == items
  {
  }

  /** A failed login reports the server's `error`, else its `message`, else
      'Login failed'; a thrown or unreadable reply reports a network error. */
  lemma LoginErrorMessage(items: map<string, string>, outcome: HttpOutcome, stringify: Val -> string)
    ensures var step := LoginSpec(items, outcome, stringify);
            && (step.response.Error? <==> !(outcome.Responded? && IsOk(outcome.status) && outcome.body.Json?
                                              && !Nullish(outcome.body.value)))
            && (outcome.Responded? && !IsOk(outcome.status) && outcome.body.Json? && !Nullish(outcome.body.value)
                ==> var d := outcome.body.value;
                    step.response.error == (if Truthy(Field(d, "error")) then Field(d, "error")
                                            else if Truthy(Field(d, "message")) then Field(d, "message")
                                            else Str(LoginFailed)))
            && (outcome.Threw? || outcome.body.Unparsable? ==> step.response == Error(Str(NetworkError)))
  {
  }

  /** `authApi.logout`: both keys are removed. */
  function LogoutSpec(items: map<string, string>): (r: map<string, string>)
    ensures TokenKey !in r && UserKey !in r
    ensures forall k :: k in items && k != TokenKey && k != UserKey ==> k in r && r[k] == items[k]
    ensures r.Keys <= items.Keys
  {
    items - {TokenKey, UserKey}
  }

  method Logout(store: LocalStorage)
    modifies store
    ensures store.items == LogoutSpec(old(store.items))
  {
    store.RemoveItem(TokenKey);
    store.RemoveItem(UserKey);
  }

  /** Logging out twice is the same as logging out once. */
  lemma LogoutIdempotent(items: map<string, string>)
    ensures LogoutSpec(LogoutSpec(items)) == LogoutSpec(items)
    ensures !Authenticated(LogoutSpec(items))
  {
  }

  /** A login whose reply carries a token with a non-empty text form leaves the
      session authenticated; a logout after it leaves it unauthenticated. */
  lemma LoginThenLogout(items: map<string, string>, outcome: HttpOutcome, stringify: Val -> string)
    requires StoresToken(outcome)
    requires ToJsString(Field(outcome.body.value, "token")) != ""
    ensures Authenticated(LoginSpec(items, outcome, stringify).items)
    ensures !Authenticated(LogoutSpec(LoginSpec(items, outcome, stringify).items))
  {
    LoginWritesOnlyOnToken(items, outcome, stringify);
  }

  /** A truthy string, number or boolean token always has a non-empty text
      form, so storing it authenticates the session. (An empty array is truthy
      but is stored as "", which does not.) */
  lemma TruthyScalarTokenText(token: Val)
    requires Truthy(token) && (token.Str? || token.Num? || token.Bool?)
    ensures ToJsString(token) != ""
  {
  }

  // ---------------------------------------------------------------------------
  // Query builders of the list accessors

  /** The list endpoints that build a query string. */
  datatype Listing = Users | Orders | Products | Feedback | Ambassadors

  function ListPath(l: Listing): string {
    match l
    case Users => "/admin/users"
    case Orders => "/admin/orders"
    case Products => "/admin/products"
    case Feedback => "/feedback"
    case Ambassadors => "/ambassadors"
  }

  /** `value !== undefined` */
  predicate IsDefined(entry: (string, Val)) {
    !entry.1.Undefined?
  }

  /** `append(key, String(value))` for each entry. */
  function Stringified(entries: seq<(string, Val)>): (r: seq<(string, string)>)
    ensures |r| == |entries|
    ensures forall i :: 0 <= i < |r| ==> r[i] == (entries[i].0, ToJsString(entries[i].1))
  {
    if entries == [] then [] else Stringified(entries[..|entries| - 1]) + [(entries[|entries| - 1].0, ToJsString(entries[|entries| - 1].1))]
  }

  /** The query parameters built from `Object.entries(params)`. */
  function QueryParams(entries: seq<(string, Val)>): seq<(string, string)> {
    Stringified(Filter(entries, IsDefined))
  }

  /** The `forEach` loop that fills the URLSearchParams buffer. */
  method BuildQuery(entries: seq<(string, Val)>) returns (query: seq<(string, string)>)
    ensures query == QueryParams(entries)
  {
    query := [];
    var i := 0;
    while i < |entries|
      invariant 0 <= i <= |entries|
      invariant query == QueryParams(entries[..i])
    {
      FilterSnoc(entries, IsDefined, i);
      var (key, value) := entries[i];
      if !value.Undefined? {
        query := query + [(key, ToJsString(value))];
      }
      i := i + 1;
    }
    assert entries[..i] == entries;
  }

  /** `xxxApi.getAll(params)`: the endpoint (before the serialised query) and the query. */
  method ListQuery(l: Listing, entries: seq<(string, Val)>) returns (endpoint: string, query: seq<(string, string)>)
    ensures endpoint == ListPath(l) + "?"
    ensures query == QueryParams(entries)
  {
    endpoint := ListPath(l) + "?";
    query := BuildQuery(entries);
  }

  /** Every entry whose value is not undefined is in the query, as text, at its rank. */
  lemma QueryKeepsDefined(entries: seq<(string, Val)>, i: nat)
    requires i < |entries| && !entries[i].1.Undefined?
    ensures Rank(entries, IsDefined, i) < |QueryParams(entries)|
    ensures QueryParams(entries)[Rank(entries, IsDefined, i)] == (entries[i].0, ToJsString(entries[i].1))
  {
    FilterKeeps(entries, IsDefined, i);
  }

  /** Parameters keep the order of their entries. */
  lemma QueryKeepsOrder(entries: seq<(string, Val)>, i: nat, j: nat)
    requires i < j < |entries| && !entries[i].1.Undefined?
    ensures Rank(entries, IsDefined, i) < Rank(entries, IsDefined, j)
  {
    RankIncreases(entries, IsDefined, i, j);
  }

  /** Every parameter comes from an entry whose value is not undefined. */
  lemma QueryOnlyDefined(entries: seq<(string, Val)>, k: nat)
    requires k < |QueryParams(entries)|
    ensures exists i :: 0 <= i < |entries| && !entries[i].1.Undefined?
                        && QueryParams(entries)[k] == (entries[i].0, ToJsString(entries[i].1))
  {
    FilterOnlyKept(entries, IsDefined, k);
    var kept := Filter(entries, IsDefined);
    var i :| 0 <= i < |entries| && IsDefined(entries[i]) && Rank(entries, IsDefined, i) == k && kept[k] == entries[i];
    assert QueryParams(entries)[k] == (entries[i].0, ToJsString(entries[i].1));
  }
}
