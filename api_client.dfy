/** The HTTP client: the token store kept in `localStorage`, the request
    headers, and `apiFetch`'s mapping of every response and every failure to a
    single result or a single exception shape. */
module ApiClient {
  import opened Js
  import opened Numbers
  import opened Json
  import opened Config
  import opened LocalStorage

  // ===========================================================================
  // Token store

  /** `getAuthToken()`. */
  function GetAuthToken(items: map<string, string>): Option<string> {
    if AuthTokenKey in items then Some(items[AuthTokenKey]) else None
  }

  /** `isTokenExpired()` at time `now` (milliseconds since the epoch). A missing
      or empty expiry counts as expired; an expiry `parseInt` cannot read is
      NaN, and `now > NaN` is false, so such a token never expires. */
  predicate IsTokenExpired(items: map<string, string>, now: int) {
    if TokenExpiryKey !in items || items[TokenExpiryKey] == "" then true
    else
      match ParseInt(items[TokenExpiryKey])
      case None => false
      case Some(expiry) => now > expiry
  }

  /** The storage after `setAuthToken(token, expiresIn)` at time `now`. */
  function WithToken(items: map<string, string>, token: string, expiresIn: int, now: int): map<string, string> {
    items[AuthTokenKey := token][TokenExpiryKey := IntToString(now + expiresIn * 1000)]
  }

  /** The storage after `clearAuthToken()`. */
  function WithoutToken(items: map<string, string>): map<string, string> {
    items - {AuthTokenKey, TokenExpiryKey, UserDataKey}
  }

  method SetAuthToken(store: Storage, token: string, expiresIn: int, now: int)
    modifies store
    ensures store.items == WithToken(old(store.items), token, expiresIn, now)
  {
    store.SetItem(AuthTokenKey, token);
    var expiryTime := now + expiresIn * 1000;
    store.SetItem(TokenExpiryKey, IntToString(expiryTime));
  }

  method ClearAuthToken(store: Storage)
    modifies store
    ensures store.items == WithoutToken(old(store.items))
  {
    store.RemoveItem(AuthTokenKey);
    store.RemoveItem(TokenExpiryKey);
    store.RemoveItem(UserDataKey);
  }

  /** With no expiry stored, or an empty one, the token is expired; with a
      readable expiry it is expired exactly when `now` is past it; an expiry
      `parseInt` cannot read is `NaN`, and no instant is past `NaN`. */
  lemma IsTokenExpiredCases(items: map<string, string>, now: int)
    ensures TokenExpiryKey !in items ==> IsTokenExpired(items, now)
    ensures TokenExpiryKey in items && ParseInt(items[TokenExpiryKey]).Some? ==>
              (IsTokenExpired(items, now) <==> now > ParseInt(items[TokenExpiryKey]).value)
    ensures TokenExpiryKey in items && items[TokenExpiryKey] == "" ==> IsTokenExpired(items, now)
    ensures TokenExpiryKey in items && items[TokenExpiryKey] != "" && ParseInt(items[TokenExpiryKey]).None? ==>
              !IsTokenExpired(items, now)
  {
  }

  /** After `setAuthToken(t, e)` the token reads back as `t`, and the token is
      expired at a later instant exactly when that instant is past `now + 1000*e`;
      in particular it is not expired at the same instant when `e >= 0`. */
  lemma SetTokenThenCheck(items: map<string, string>, token: string, expiresIn: int, now: int, later: int)
    ensures GetAuthToken(WithToken(items, token, expiresIn, now)) == Some(token)
    ensures IsTokenExpired(WithToken(items, token, expiresIn, now), later) <==> later > now + expiresIn * 1000
    ensures expiresIn >= 0 ==> !IsTokenExpired(WithToken(items, token, expiresIn, now), now)
  {
    var e := now + expiresIn * 1000;
    ParseIntOfIntToString(e);
    assert IntToString(e) != "";
  }

  /** `clearAuthToken()` removes the token, its expiry and the cached user
      data, and keeps every other key (among them the auth context's 'auth_user'). */
  lemma ClearTokenFrame(items: map<string, string>, key: string, now: int)
    ensures GetAuthToken(WithoutToken(items)) == None
    ensures TokenExpiryKey !in WithoutToken(items) && UserDataKey !in WithoutToken(items)
    ensures IsTokenExpired(WithoutToken(items), now)
    ensures key !in {AuthTokenKey, TokenExpiryKey, UserDataKey} ==>
              (key in WithoutToken(items) <==> key in items) &&
              (key in items ==> WithoutToken(items)[key] == items[key])
  {
  }

  /** A step of the token lifecycle: `setAuthToken` at some instant, or `clearAuthToken`. */
  datatype TokenOp = SetToken(token: string, expiresIn: int, at: int) | ClearToken

  function Replay(items: map<string, string>, ops: seq<TokenOp>): map<string, string>
    decreases |ops|
  {
    if ops == [] then items
    else
      var before := Replay(items, ops[..|ops| - 1]);
      match ops[|ops| - 1]
      case SetToken(t, e, at) => WithToken(before, t, e, at)
      case ClearToken => WithoutToken(before)
  }

  /** The expiry the last step left: None when there was no step, Some(None)
      when the last step cleared the token. */
  function LastExpiry(ops: seq<TokenOp>): Option<Option<int>> {
    if ops == [] then None
    else
      match ops[|ops| - 1]
      case SetToken(_, e, at) => Some(Some(at + e * 1000))
      case ClearToken => Some(None)
  }

  /** Over any sequence of sets and clears, the token is expired exactly when
      the last step cleared it or `now` is past the expiry the last set wrote;
      with no step at all, the initial storage decides. */
  lemma {:induction false} TokenLifecycle(items: map<string, string>, ops: seq<TokenOp>, now: int)
    ensures IsTokenExpired(Replay(items, ops), now) <==>
      match LastExpiry(ops)
      case None => IsTokenExpired(items, now)
      case Some(None) => true
      case Some(Some(expiry)) => now > expiry
  {
    if ops != [] {
      var before := Replay(items, ops[..|ops| - 1]);
      match ops[|ops| - 1]
      case SetToken(t, e, at) =>
        SetTokenThenCheck(before, t, e, at, now);
      case ClearToken =>
        ClearTokenFrame(before, TokenExpiryKey, now);
    }
  }

  // ===========================================================================
  // Request headers

  const AuthorizationHeader: string := "Authorization"

  /** `{ ...API_CONFIG.headers, ...options.headers, ...(token ? { Authorization } : {}) }`. */
  function BuildHeaders(caller: map<string, string>, token: Option<string>): map<string, string> {
    map[ContentTypeHeader := JsonMediaType] + caller
      + (if token.Some? && token.value != "" then map[AuthorizationHeader := "Bearer " + token.value] else map[])
  }

  /** A non-empty stored token yields `Authorization: Bearer <token>` (section
      2.1 of RFC 6750), replacing any Authorization the caller passed; without
      one the caller's headers are kept as given. The caller's Content-Type
      replaces the JSON default, and every other caller header is kept. */
  lemma HeadersProperties(caller: map<string, string>, token: Option<string>, key: string)
    ensures token.Some? && token.value != "" ==>
              AuthorizationHeader in BuildHeaders(caller, token) &&
              BuildHeaders(caller, token)[AuthorizationHeader] == "Bearer " + token.value
    ensures token.None? || token.value == "" ==>
              (AuthorizationHeader in BuildHeaders(caller, token) <==> AuthorizationHeader in caller)
    ensures ContentTypeHeader in BuildHeaders(caller, token)
    ensures BuildHeaders(caller, token)[ContentTypeHeader] ==
              if ContentTypeHeader in caller then caller[ContentTypeHeader] else JsonMediaType
    ensures key != AuthorizationHeader && key in caller ==> BuildHeaders(caller, token)[key] == caller[key]
    ensures BuildHeaders(caller, token).Keys <= caller.Keys + {ContentTypeHeader, AuthorizationHeader}
  {
  }

  datatype Request = Request(url: string, headers: map<string, string>)

  /** The URL and headers `apiFetch` sends, given the base URL and the storage. */
  function PrepareRequest(baseUrl: string, endpoint: string, caller: map<string, string>,
                          items: map<string, string>): Request {
    Request(baseUrl + endpoint, BuildHeaders(caller, GetAuthToken(items)))
  }

  // ===========================================================================
  // Responses and errors

  /** What `apiFetch` sees of a response: the status, the Content-Type header
      (None when absent), the body text (None when reading it failed), and what
      `JSON.parse` makes of that text (None for a syntax error). */
  datatype HttpResponse = HttpResponse(status: int, contentType: Option<string>, body: Option<string>, parsed: Option<Json>)

  /** `response.ok`. */
  predicate IsOk(r: HttpResponse) {
    200 <= r.status <= 299
  }

  /** `fetch` either resolves with a response or rejects with a thrown value
      (an AbortError when the 30-second timer fires). */
  datatype FetchResult = Responded(response: HttpResponse) | Rejected(thrown: Thrown)

  /** One entry of a `VALIDATION_ERROR`'s details: `{ field, message }`. */
  datatype FieldError = FieldError(field: string, message: Json)

  /** The `details` of an ApiException: absent, a value passed through from the
      server's `error` object, or the field errors built from a validation array. */
  datatype Details = NoDetails | PassedThrough(value: Json) | FieldErrors(errors: seq<FieldError>)

  /** `new ApiException(code, message, details, status)`. `code` is stored as
      given (None for `undefined`); `message` is what `Error(message)` keeps:
      `String(message)`, or "" when it is `undefined`. */
  datatype ApiException = ApiException(code: Option<Json>, message: string, details: Details, status: Option<int>)

  /** What a call of `apiFetch` resolves with: `undefined`, the raw `Response`,
      or the parsed body. */
  datatype Value = NoValue | RawResponse | Data(json: Json)

  /** A value raised inside the `try` block: an ApiException, or a JavaScript
      error such as the TypeError a property read of `null` causes. */
  datatype Raised = RaisedApi(e: ApiException) | RaisedJs(t: Thrown)

  /** The `try` block either returns a value or raises. */
  datatype Step = Return(value: Value) | Raise(raised: Raised)

  /** `apiFetch` either resolves with a value or rejects with an ApiException. */
  datatype Outcome = Resolves(value: Value) | Rejects(error: ApiException)

  const HttpErrorCode: string := "HTTP_ERROR"
  const ValidationErrorCode: string := "VALIDATION_ERROR"
  const ParseErrorCode: string := "PARSE_ERROR"
  const TimeoutCode: string := "TIMEOUT"
  const NetworkErrorCode: string := "NETWORK_ERROR"
  const UnknownErrorCode: string := "UNKNOWN_ERROR"

  function Code(c: string): Option<Json> {
    Some(JStr(c))
  }

  /** The message `Error(message)` keeps. */
  function MessageText(m: Option<Json>): string {
    match m
    case None => ""
    case Some(v) => ToJsString(v)
  }

  /** The generic fallback: `HTTP_ERROR`, "HTTP error! status: N", status N. */
  function HttpError(status: int): ApiException {
    ApiException(Code(HttpErrorCode), "HTTP error! status: " + IntToString(status), NoDetails, Some(status))
  }

  const ParseError: ApiException := ApiException(Code(ParseErrorCode), "Failed to parse response as JSON", NoDetails, None)

  /** `new ApiException(e.code, e.message, e.details, status)` for the server's
      error object `e`; reading those properties of `null` raises a TypeError. */
  function PassThrough(e: Json, status: int): Raised {
    if e.JNull? then RaisedJs(TypeError)
    else
      var details := Get(e, "details");
      RaisedApi(ApiException(Get(e, "code"), MessageText(Get(e, "message")),
                             if details.Some? then PassedThrough(details.value) else NoDetails,
                             Some(status)))
  }

  /** `{ field: err.loc?.join('.') || 'unknown', message: err.msg || 'Validation error' }`;
      None when `err` is `null` or its `loc` is a non-null value without a
      `join` method, both of which raise a TypeError. */
  function ValidationEntry(err: Json): Option<FieldError> {
    if err.JNull? then None
    else
      var loc := Get(err, "loc");
      var msg := Get(err, "msg");
      var message := if msg.Some? && Truthy(msg.value) then msg.value else JStr("Validation error");
      if loc.None? || loc.value.JNull? then Some(FieldError("unknown", message))
      else if loc.value.JArr? then
        var joined := ArrayJoin(loc.value.elems, ".");
        Some(FieldError(if joined == "" then "unknown" else joined, message))
      else None
  }

  /** `detail.map(...)`: every entry, or None as soon as one raises. */
  function ValidationEntries(xs: seq<Json>): (r: Option<seq<FieldError>>)
    ensures r.Some? ==> |r.value| == |xs|
    ensures r.Some? <==> forall i :: 0 <= i < |xs| ==> ValidationEntry(xs[i]).Some?
    ensures r.Some? ==> forall i :: 0 <= i < |xs| ==> r.value[i] == ValidationEntry(xs[i]).value
  {
    if xs == [] then Some([])
    else
      match (ValidationEntry(xs[0]), ValidationEntries(xs[1..]))
      case (Some(f), Some(fs)) =>
        assert forall i :: 1 <= i < |xs| ==> xs[i] == xs[1..][i - 1];
        Some([f] + fs)
      case (None, _) => None
      case (_, None) =>
        assert forall i :: 1 <= i < |xs| ==> xs[i] == xs[1..][i - 1];
        None
  }

  /** The error envelopes of a non-2xx JSON body, tried in the source's order. */
  function ErrorEnvelope(data: Json, status: int): Raised {
    if !(Truthy(data) && IsObjectLike(data)) then RaisedApi(HttpError(status))
    else
      var detail := Get(data, "detail");
      var error := Get(data, "error");
      if detail.Some? && Truthy(detail.value) && IsObjectLike(detail.value) && Has(detail.value, "error") then
        // { "detail": { "error": { code, message, details } } }
        PassThrough(Get(detail.value, "error").value, status)
      else if error.Some? && Truthy(error.value) && IsObjectLike(error.value) then
        // { "error": { code, message, details } }
        PassThrough(error.value, status)
      else if detail.Some? then
        match detail.value
        case JStr(text) => RaisedApi(ApiException(Code(HttpErrorCode), text, NoDetails, Some(status)))
        case JArr(xs) =>
          (match ValidationEntries(xs)
           case Some(fs) => RaisedApi(ApiException(Code(ValidationErrorCode), "Validation failed", FieldErrors(fs), Some(status)))
           case None => RaisedJs(TypeError))
        case _ => RaisedApi(HttpError(status))
      else if Has(data, "message") then
        RaisedApi(ApiException(Code(HttpErrorCode), MessageText(Get(data, "message")), NoDetails, Some(status)))
      else RaisedApi(HttpError(status))
  }

  /** The `try` block after `fetch` resolved. A blank body of a non-2xx
      response raises inside the inner `try`, whose `catch` raises the same
      HTTP error again. */
  function HandleResponse(r: HttpResponse): Step {
    if r.status == 204 then Return(NoValue)
    else if r.contentType.Some? && r.contentType.value != "" && !Contains(r.contentType.value, JsonMediaType) then
      if IsOk(r) then Return(RawResponse) else Raise(RaisedApi(HttpError(r.status)))
    else if r.body.None? || (!IsBlank(r.body.value) && r.parsed.None?) then
      Raise(RaisedApi(if IsOk(r) then ParseError else HttpError(r.status)))
    else if IsBlank(r.body.value) then
      if IsOk(r) then Return(NoValue) else Raise(RaisedApi(HttpError(r.status)))
    else if !IsOk(r) then Raise(ErrorEnvelope(r.parsed.value, r.status))
    else Return(Data(r.parsed.value))
  }

  /** The outer `catch` block. */
  function CatchError(x: Raised): ApiException {
    match x
    case RaisedApi(e) => e
    case RaisedJs(ErrorObject(name, message)) =>
      if name == "AbortError" then ApiException(Code(TimeoutCode), "Request timeout", NoDetails, None)
      else ApiException(Code(NetworkErrorCode), message, NoDetails, None)
    case RaisedJs(NonError) => ApiException(Code(UnknownErrorCode), "An unknown error occurred", NoDetails, None)
  }

  /** The outcome of `apiFetch` once `fetch` has resolved or rejected. */
  function Settle(fetched: FetchResult): Outcome {
    match fetched
    case Rejected(t) => Rejects(CatchError(RaisedJs(t)))
    case Responded(r) =>
      match HandleResponse(r)
      case Return(v) => Resolves(v)
      case Raise(x) => Rejects(CatchError(x))
  }

  /** One call of `apiFetch(endpoint, { headers })`: the request sent, given the
      base URL and the storage, and the outcome, given what `fetch` produced. */
  datatype Call = Call(request: Request, outcome: Outcome)

  function ApiFetch(baseUrl: string, endpoint: string, caller: map<string, string>,
                    items: map<string, string>, fetched: FetchResult): (c: Call)
    ensures c.request.url == baseUrl + endpoint
    ensures c.request.headers == BuildHeaders(caller, GetAuthToken(items))
    ensures fetched.Rejected? ==> c.outcome.Rejects? && c.outcome.error.status.None?
  {
    Call(PrepareRequest(baseUrl, endpoint, caller, items), Settle(fetched))
  }

  /** The value a screen's `catch (err)` receives from a rejected call: an
      `Error` named 'ApiException', so `err.message` is what it shows. */
  function AsThrown(e: ApiException): (t: Thrown)
    ensures t.ErrorObject? && t.name == "ApiException"
    ensures forall fallback :: ErrorText(t, fallback) == e.message
  {
    ErrorObject("ApiException", e.message)
  }

  // ---------------------------------------------------------------------------
  // Properties of the classification

  /** The outcomes that do not depend on the body's content: 204 (section
      15.3.5 of RFC 9110) gives no value whatever the body; a non-JSON content
      type gives the raw response or `HTTP_ERROR`; a blank body gives no value
      on success; a body that does not parse gives `PARSE_ERROR` on success and
      `HTTP_ERROR` otherwise. */
  lemma ResponseOutcomes(r: HttpResponse)
    ensures r.status == 204 ==> Settle(Responded(r)) == Resolves(NoValue)
    ensures r.status != 204 && r.contentType.Some? && r.contentType.value != ""
            && !Contains(r.contentType.value, JsonMediaType) ==>
              Settle(Responded(r)) == if IsOk(r) then Resolves(RawResponse) else Rejects(HttpError(r.status))
    ensures r.status != 204 && (r.contentType.None? || Contains(r.contentType.value, JsonMediaType))
            && r.body.Some? && IsBlank(r.body.value) ==>
              Settle(Responded(r)) == if IsOk(r) then Resolves(NoValue) else Rejects(HttpError(r.status))
    ensures r.status != 204 && (r.contentType.None? || Contains(r.contentType.value, JsonMediaType))
            && (r.body.None? || (!IsBlank(r.body.value) && r.parsed.None?)) ==>
              Settle(Responded(r)) == if IsOk(r) then Rejects(ParseError) else Rejects(HttpError(r.status))
    ensures r.status != 204 && (r.contentType.None? || Contains(r.contentType.value, JsonMediaType))
            && r.body.Some? && !IsBlank(r.body.value) && r.parsed.Some? ==>
              Settle(Responded(r)) ==
                if IsOk(r) then Resolves(Data(r.parsed.value))
                else Rejects(CatchError(ErrorEnvelope(r.parsed.value, r.status)))
  {
  }

  /** A successful response never rejects with `HTTP_ERROR`, and every
      response that is not 2xx rejects: with its own status, except when a
      malformed envelope makes the code raise a TypeError, which the `catch`
      block reports as `NETWORK_ERROR`. */
  lemma {:induction false} OutcomeByStatus(r: HttpResponse)
    ensures IsOk(r) ==> Settle(Responded(r)).Resolves? || Settle(Responded(r)) == Rejects(ParseError)
    ensures !IsOk(r) ==> Settle(Responded(r)).Rejects?
    ensures !IsOk(r) ==> var e := Settle(Responded(r)).error;
              e.status == Some(r.status) || (e.code == Code(NetworkErrorCode) && e.message == TypeError.message)
  {
    if !IsOk(r) && HandleResponse(r).Raise? {
      var x := HandleResponse(r).raised;
      if r.parsed.Some? && x == ErrorEnvelope(r.parsed.value, r.status) {
        EnvelopeStatus(r.parsed.value, r.status);
      }
    }
  }

  lemma EnvelopeStatus(data: Json, status: int)
    ensures ErrorEnvelope(data, status).RaisedApi? ==> ErrorEnvelope(data, status).e.status == Some(status)
    ensures ErrorEnvelope(data, status).RaisedJs? ==> ErrorEnvelope(data, status).t == TypeError
  {
  }

  /** The order in which a non-2xx JSON body is read: a body that is not an
      object or array gives the status fallback; then a nested `detail.error`
      (a `null` one raises a TypeError); then a truthy object-like top-level
      `error` (both passed through with code, message and details); then a
      string `detail`, then an array `detail`, then `message`. */
  lemma EnvelopePrecedence(data: Json, status: int)
    ensures !(Truthy(data) && IsObjectLike(data)) ==> ErrorEnvelope(data, status) == RaisedApi(HttpError(status))
    ensures var d := Get(data, "detail");
            (d.Some? && d.value.JObj? && Has(d.value, "error") && !Get(d.value, "error").value.JNull?) ==>
              var e := Get(d.value, "error").value;
              ErrorEnvelope(data, status) ==
                RaisedApi(ApiException(Get(e, "code"), MessageText(Get(e, "message")),
                  if Has(e, "details") then PassedThrough(Get(e, "details").value) else NoDetails, Some(status)))
    ensures var d := Get(data, "detail");
            (d.Some? && d.value.JObj? && Has(d.value, "error") && Get(d.value, "error").value.JNull?) ==>
              ErrorEnvelope(data, status) == RaisedJs(TypeError)
    ensures var d := Get(data, "detail"); var e := Get(data, "error");
            !(d.Some? && d.value.JObj? && Has(d.value, "error"))
            && e.Some? && Truthy(e.value) && IsObjectLike(e.value) ==>
              ErrorEnvelope(data, status) ==
                RaisedApi(ApiException(Get(e.value, "code"), MessageText(Get(e.value, "message")),
                  if Has(e.value, "details") then PassedThrough(Get(e.value, "details").value) else NoDetails,
                  Some(status)))
    ensures var d := Get(data, "detail"); var e := Get(data, "error");
            d.Some? && d.value.JStr? && !(e.Some? && Truthy(e.value) && IsObjectLike(e.value)) ==>
              ErrorEnvelope(data, status) == RaisedApi(ApiException(Code(HttpErrorCode), d.value.s, NoDetails, Some(status)))
    ensures var d := Get(data, "detail"); var e := Get(data, "error");
            d.Some? && d.value.JArr? && !(e.Some? && Truthy(e.value) && IsObjectLike(e.value))
            && ValidationEntries(d.value.elems).Some? ==>
              ErrorEnvelope(data, status) ==
                RaisedApi(ApiException(Code(ValidationErrorCode), "Validation failed",
                  FieldErrors(ValidationEntries(d.value.elems).value), Some(status)))
    ensures var d := Get(data, "detail"); var e := Get(data, "error");
            d.Some? && d.value.JArr? && !(e.Some? && Truthy(e.value) && IsObjectLike(e.value))
            && ValidationEntries(d.value.elems).None? ==>
              ErrorEnvelope(data, status) == RaisedJs(TypeError)
    ensures var e := Get(data, "error");
            Get(data, "detail").None? && !(e.Some? && Truthy(e.value) && IsObjectLike(e.value))
            && Has(data, "message") ==>
              ErrorEnvelope(data, status) ==
                RaisedApi(ApiException(Code(HttpErrorCode), MessageText(Get(data, "message")), NoDetails, Some(status)))
    ensures var e := Get(data, "error");
            Get(data, "detail").None? && !(e.Some? && Truthy(e.value) && IsObjectLike(e.value))
            && !Has(data, "message") ==>
              ErrorEnvelope(data, status) == RaisedApi(HttpError(status))
  {
  }

  /** A `detail` that is present but neither a string, an array, nor an
      object holding `error` gives the generic fallback, even when the body
      also has a `message`. */
  lemma DetailShadowsMessage(data: Json, status: int)
    requires Get(data, "detail").Some?
    requires var d := Get(data, "detail").value; !d.JStr? && !d.JArr? && !(d.JObj? && Has(d, "error"))
    requires var e := Get(data, "error"); !(e.Some? && Truthy(e.value) && IsObjectLike(e.value))
    ensures ErrorEnvelope(data, status) == RaisedApi(HttpError(status))
  {
  }

  /** The field of a validation entry is its `loc` joined with '.', or
      'unknown' when `loc` is absent, `null` or joins to ""; its message is a
      truthy `msg`, or 'Validation error'. */
  lemma ValidationEntryFields(err: Json)
    requires err.JObj?
    ensures var loc := Get(err, "loc");
            (loc.None? || loc.value.JNull? || loc.value.JArr?) <==> ValidationEntry(err).Some?
    ensures var loc := Get(err, "loc"); ValidationEntry(err).Some? ==>
              ValidationEntry(err).value.field ==
                if loc.Some? && loc.value.JArr? && ArrayJoin(loc.value.elems, ".") != ""
                then ArrayJoin(loc.value.elems, ".") else "unknown"
    ensures var msg := Get(err, "msg"); ValidationEntry(err).Some? ==>
              ValidationEntry(err).value.message == if msg.Some? && Truthy(msg.value) then msg.value else JStr("Validation error")
  {
  }

  /** The `catch` block: an ApiException is rethrown unchanged, an
      `AbortError` becomes `TIMEOUT`, any other Error becomes `NETWORK_ERROR`
      with its message, and any other value `UNKNOWN_ERROR`. */
  lemma CatchErrorCases(x: Raised)
    ensures x.RaisedApi? ==> CatchError(x) == x.e
    ensures x.RaisedJs? && x.t.ErrorObject? && x.t.name == "AbortError" ==>
              CatchError(x).code == Code(TimeoutCode) && CatchError(x).message == "Request timeout"
    ensures x.RaisedJs? && x.t.ErrorObject? && x.t.name != "AbortError" ==>
              CatchError(x).code == Code(NetworkErrorCode) && CatchError(x).message == x.t.message
    ensures x.RaisedJs? && x.t.NonError? ==>
              CatchError(x).code == Code(UnknownErrorCode) && CatchError(x).message == "An unknown error occurred"
    ensures CatchError(RaisedApi(CatchError(x))) == CatchError(x)
  {
  }

  /** `{"detail": "bad username"}` with status 400. */
  lemma DetailStringExample()
    ensures ErrorEnvelope(JObj([("detail", JStr("bad username"))]), 400)
              == RaisedApi(ApiException(Code(HttpErrorCode), "bad username", NoDetails, Some(400)))
  {
  }

  /** `{"detail": [{"loc": ["body", "email"], "msg": "invalid"}]}` with status 422. */
  lemma ValidationExample()
    ensures var entry := JObj([("loc", JArr([JStr("body"), JStr("email")])), ("msg", JStr("invalid"))]);
            var body := JObj([("detail", JArr([entry]))]);
            ErrorEnvelope(body, 422) ==
              RaisedApi(ApiException(Code(ValidationErrorCode), "Validation failed",
                FieldErrors([FieldError("body.email", JStr("invalid"))]), Some(422)))
  {
    var loc := [JStr("body"), JStr("email")];
    assert ArrayJoin(loc, ".") == Join(["body", "email"], ".");
    assert Join(["body", "email"], ".") == "body.email";
    var entry := JObj([("loc", JArr(loc)), ("msg", JStr("invalid"))]);
    assert ValidationEntry(entry) == Some(FieldError("body.email", JStr("invalid")));
    assert [entry][1..] == [];
    assert ValidationEntries([entry][1..]) == Some([]);
    assert [FieldError("body.email", JStr("invalid"))] + [] == [FieldError("body.email", JStr("invalid"))];
    assert ValidationEntries([entry]) == Some([FieldError("body.email", JStr("invalid"))]);
  }
}
