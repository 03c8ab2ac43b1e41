/**
 * The CIC customer-lookup tool (`cic_new_lookup_tool`): it queries the CIC lookup
 * endpoint with a phone number and classifies whatever comes back (an HTTP response
 * of any status, or a thrown error) into a record whose `status` and `nextAction`
 * come from closed enumerations, so that an agent can route on them.
 *
 * The HTTP request is not modelled: its outcome is the `Outcome` parameter of `Lookup`.
 */
module CicLookup {
  import opened Wrappers
  import opened Js

  /** The business outcome of a lookup. */
  datatype Status = Registered | NotRegistered | InvalidInput | UpstreamError

  /** What the conversation should do next. */
  datatype NextAction = Continue | AskToRegister | AskRetry | Escalate

  /** The validated user record: every field is a string or null. */
  datatype User = User(phone: Option<string>, fullName: Option<string>,
                       idNumber: Option<string>, email: Option<string>)

  /** The validated result record returned to the agent. */
  datatype LookupResult = LookupResult(
    ok: bool,
    httpStatus: Option<int>,
    apiCode: Option<string>,
    status: Status,
    nextAction: NextAction,
    message: string,
    user: Option<User>)

  /** A user object as assembled from the response body, before schema validation. */
  datatype RawUser = RawUser(phone: JsValue, fullName: JsValue, idNumber: JsValue, email: JsValue)

  /** A result record before schema validation: only the user fields are still untyped. */
  datatype RawRecord = RawRecord(
    ok: bool,
    httpStatus: Option<int>,
    apiCode: Option<string>,
    status: Status,
    nextAction: NextAction,
    message: string,
    user: Option<RawUser>)

  /** A key of a partial record: left out, or present with a value (which may itself be null). */
  datatype Field<T> = Absent | Given(value: T)

  /** The partial record handed to `build`. */
  datatype Partial = Partial(
    ok: Field<bool>,
    httpStatus: Field<Option<int>>,
    apiCode: Field<Option<string>>,
    status: Field<Status>,
    nextAction: Field<NextAction>,
    message: Field<string>,
    user: Field<Option<RawUser>>)

  /** A schema validation failure, naming the offending user field. */
  datatype SchemaError = SchemaError(field: string)

  /** What the HTTP request produced: a response of any status (none is rejected), or a thrown error. */
  datatype Outcome = Responded(httpStatus: int, body: JsValue) | Threw(error: JsValue)

  const MsgTrouble := "We\U{2019}re having trouble accessing CIC services right now. Please try again shortly."
  const MsgUnavailable := "CIC services are temporarily unavailable. Please try again."
  const MsgRegistered := "You are registered with CIC. Let\U{2019}s continue."
  const MsgNotRegistered := "You are not registered with CIC. Would you like to register now?"
  const MsgInvalidPhone := "That phone number looks invalid. Please enter it in the format 2547XXXXXXXX."
  const MsgNotFound := "We couldn\U{2019}t find an account for that number. Would you like to register?"
  const MsgUnconfirmed := "We couldn\U{2019}t confirm your status. Please try again or contact support."
  const MsgTimeout := "Request timed out. Please try again."
  const MsgNetwork := "Network error contacting CIC services. Please try again."

  /** The defaults `build` starts from. */
  const Base: RawRecord := RawRecord(false, None, None, UpstreamError, Escalate, MsgTrouble, None)

  /** One key of `{ ...base, ...partial }`. */
  function Overlay<T>(base: T, f: Field<T>): (r: T)
    ensures f.Given? ==> r == f.value
    ensures f.Absent? ==> r == base
  {
    match f
    case Absent => base
    case Given(v) => v
  }

  /** `{ ...base, ...partial }`: the keys the partial has replace those of the base. */
  function Spread(base: RawRecord, p: Partial): (r: RawRecord)
    ensures r.ok == (if p.ok.Given? then p.ok.value else base.ok)
    ensures r.httpStatus == (if p.httpStatus.Given? then p.httpStatus.value else base.httpStatus)
    ensures r.apiCode == (if p.apiCode.Given? then p.apiCode.value else base.apiCode)
    ensures r.status == (if p.status.Given? then p.status.value else base.status)
    ensures r.nextAction == (if p.nextAction.Given? then p.nextAction.value else base.nextAction)
    ensures r.message == (if p.message.Given? then p.message.value else base.message)
    ensures r.user == (if p.user.Given? then p.user.value else base.user)
    ensures p == Partial(Absent, Absent, Absent, Absent, Absent, Absent, Absent) ==> r == base
  {
    RawRecord(
      Overlay(base.ok, p.ok),
      Overlay(base.httpStatus, p.httpStatus),
      Overlay(base.apiCode, p.apiCode),
      Overlay(base.status, p.status),
      Overlay(base.nextAction, p.nextAction),
      Overlay(base.message, p.message),
      Overlay(base.user, p.user))
  }

  /** A value the schema `z.string().nullable()` accepts. */
  predicate StringOrNull(v: JsValue) {
    v.Str? || v.Null?
  }

  /** The user fields all pass the schema. */
  predicate Conforms(u: RawUser) {
    StringOrNull(u.phone) && StringOrNull(u.fullName) && StringOrNull(u.idNumber) && StringOrNull(u.email)
  }

  /** Validation of one `z.string().nullable()` field. */
  function ParseNullableString(v: JsValue, field: string): (r: Result<Option<string>, SchemaError>)
    ensures r.Success? <==> StringOrNull(v)
    ensures r.Success? ==> (r.value.Some? <==> v.Str?)
    ensures r.Success? && v.Str? ==> r.value.value == v.s
  {
    match v
    case Str(s) => Success(Some(s))
    case Null => Success(None)
    case _ => Failure(SchemaError(field))
  }

  /** Validation of the user object, field by field in declaration order. */
  function ParseUser(u: RawUser): (r: Result<User, SchemaError>)
    ensures r.Success? <==> Conforms(u)
    ensures r.Success? ==> r.value.phone == (if u.phone.Str? then Some(u.phone.s) else None)
    ensures r.Success? ==> r.value.fullName == (if u.fullName.Str? then Some(u.fullName.s) else None)
    ensures r.Success? ==> r.value.idNumber == (if u.idNumber.Str? then Some(u.idNumber.s) else None)
    ensures r.Success? ==> r.value.email == (if u.email.Str? then Some(u.email.s) else None)
    ensures r.Failure? ==> r.error.field in {"phone", "fullName", "idNumber", "email"}
    ensures r.Failure? && !StringOrNull(u.phone) ==> r.error.field == "phone"
  {
    match (ParseNullableString(u.phone, "phone"), ParseNullableString(u.fullName, "fullName"),
           ParseNullableString(u.idNumber, "idNumber"), ParseNullableString(u.email, "email"))
    case (Success(p), Success(f), Success(i), Success(e)) => Success(User(p, f, i, e))
    case (Failure(err), _, _, _) => Failure(err)
    case (_, Failure(err), _, _) => Failure(err)
    case (_, _, Failure(err), _) => Failure(err)
    case (_, _, _, Failure(err)) => Failure(err)
  }

  /** `CicLookupResultSchema.parse`: everything but the user fields is typed already. */
  function ParseRecord(raw: RawRecord): (r: Result<LookupResult, SchemaError>)
    ensures r.Success? <==> raw.user.None? || Conforms(raw.user.value)
    ensures r.Success? ==>
      && r.value.ok == raw.ok && r.value.httpStatus == raw.httpStatus && r.value.apiCode == raw.apiCode
      && r.value.status == raw.status && r.value.nextAction == raw.nextAction && r.value.message == raw.message
      && (r.value.user.Some? <==> raw.user.Some?)
    ensures r.Success? && raw.user.Some? ==> r.value.user == Some(ParseUser(raw.user.value).value)
  {
    match raw.user
    case None =>
      Success(LookupResult(raw.ok, raw.httpStatus, raw.apiCode, raw.status, raw.nextAction, raw.message, None))
    case Some(u) =>
      match ParseUser(u)
      case Success(user) =>
        Success(LookupResult(raw.ok, raw.httpStatus, raw.apiCode, raw.status, raw.nextAction, raw.message, Some(user)))
      case Failure(e) => Failure(e)
  }

  /**
   * `build(partial)`: overlay the partial on the defaults and validate. Every key the
   * partial leaves out takes its default and every key it gives wins; validation
   * fails exactly when a given user object has a field that is neither a string nor null.
   */
  function Build(p: Partial): (r: Result<LookupResult, SchemaError>)
    ensures r.Success? <==> (p.user.Absent? || p.user.value.None? || Conforms(p.user.value.value))
    ensures r.Success? ==>
      && r.value.ok == (if p.ok.Given? then p.ok.value else false)
      && r.value.httpStatus == (if p.httpStatus.Given? then p.httpStatus.value else None)
      && r.value.apiCode == (if p.apiCode.Given? then p.apiCode.value else None)
      && r.value.status == (if p.status.Given? then p.status.value else UpstreamError)
      && r.value.nextAction == (if p.nextAction.Given? then p.nextAction.value else Escalate)
      && r.value.message == (if p.message.Given? then p.message.value else MsgTrouble)
      && (r.value.user.Some? <==> p.user.Given? && p.user.value.Some?)
    ensures r.Success? && p.user.Given? && p.user.value.Some? ==>
      r.value.user == Some(ParseUser(p.user.value.value).value)
  {
    ParseRecord(Spread(Base, p))
  }

  /** `response.data ?? {}`. */
  function ResponseData(body: JsValue): (data: JsValue)
    ensures !IsNullish(data)
    ensures !IsNullish(body) ==> data == body
    ensures IsNullish(body) ==> data == Obj(map[])
  {
    Coalesce(body, Obj(map[]))
  }

  /** `data?.code != null ? String(data.code) : null`. */
  function ApiCodeOf(data: JsValue): (r: Option<string>)
    ensures r.None? <==> IsNullish(Get(data, "code"))
    ensures Get(data, "code").Str? ==> r == Some(Get(data, "code").s)
  {
    var code := Get(data, "code");
    if IsNullish(code) then None else Some(ToJsString(code))
  }

  /** The user object of the "00" branch, with its `??` fallbacks. */
  function RegisteredUser(data: JsValue, phone: string): (u: RawUser)
    ensures !IsNullish(u.phone)
    ensures Get(Get(data, "data"), "phone").Str? ==> u.phone == Get(Get(data, "data"), "phone")
    ensures IsNullish(Get(Get(data, "data"), "phone")) ==> u.phone == Str(phone)
    ensures u.fullName != Undefined && u.idNumber != Undefined && u.email != Undefined
    ensures u.fullName.Null? <==> IsNullish(Get(Get(data, "data"), "fullName")) && IsNullish(Get(Get(data, "data"), "name"))
  {
    var d := Get(data, "data");
    RawUser(
      Coalesce(Get(d, "phone"), Str(phone)),
      Coalesce(Coalesce(Get(d, "fullName"), Get(d, "name")), Null),
      Coalesce(Get(d, "idNumber"), Null),
      Coalesce(Get(d, "email"), Null))
  }

  /** The partial record each branch of the decision cascade passes to `build`. */
  function Decide(phone: string, httpStatus: int, data: JsValue): (p: Partial)
    ensures p.ok == Given(httpStatus < 500)
    ensures p.httpStatus == Given(Some(httpStatus)) && p.apiCode == Given(ApiCodeOf(data))
    ensures p.status.Given? && p.nextAction.Given? && p.message.Given?
    ensures p.user.Absent? <==>
      httpStatus >= 500
      || (ApiCodeOf(data) !in {Some("00"), Some("01")} && httpStatus != 400 && httpStatus != 404)
    ensures p.user.Given? ==> p.user.value.Some?
  {
    var apiCode := ApiCodeOf(data);
    if httpStatus >= 500 then
      Partial(Given(false), Given(Some(httpStatus)), Given(apiCode), Given(UpstreamError),
              Given(AskRetry), Given(MsgUnavailable), Absent)
    else if apiCode == Some("00") then
      Partial(Given(true), Given(Some(httpStatus)), Given(apiCode), Given(Registered),
              Given(Continue), Given(MsgRegistered), Given(Some(RegisteredUser(data, phone))))
    else if apiCode == Some("01") then
      Partial(Given(true), Given(Some(httpStatus)), Given(apiCode), Given(NotRegistered),
              Given(AskToRegister), Given(MsgNotRegistered),
              Given(Some(RawUser(Str(phone), Null, Null, Null))))
    else if httpStatus == 400 then
      Partial(Given(true), Given(Some(httpStatus)), Given(apiCode), Given(InvalidInput),
              Given(AskRetry), Given(MsgInvalidPhone), Given(Some(RawUser(Null, Null, Null, Null))))
    else if httpStatus == 404 then
      Partial(Given(true), Given(Some(httpStatus)), Given(apiCode), Given(NotRegistered),
              Given(AskToRegister), Given(MsgNotFound),
              Given(Some(RawUser(Str(phone), Null, Null, Null))))
    else
      Partial(Given(true), Given(Some(httpStatus)), Given(apiCode), Given(UpstreamError),
              Given(Escalate), Given(MsgUnconfirmed), Absent)
  }

  /** The body of the `try` after the request returned: may throw a schema error. */
  function Classify(phone: string, httpStatus: int, body: JsValue): (r: Result<LookupResult, SchemaError>)
    ensures r.Success? ==> r.value.ok == (httpStatus < 500) && r.value.httpStatus == Some(httpStatus)
    ensures r.Failure? ==> httpStatus < 500 && ApiCodeOf(ResponseData(body)) == Some("00")
  {
    Build(Decide(phone, httpStatus, ResponseData(body)))
  }

  /** The caught error is an axios error whose code is ECONNABORTED (a request timeout). */
  predicate IsTimeout(err: JsValue)
    ensures IsTimeout(err) ==> err.Obj? && "isAxiosError" in err.props && "code" in err.props
  {
    Truthy(Get(err, "isAxiosError")) && Get(err, "code") == Str("ECONNABORTED")
  }

  /** The record the `catch` block returns for any thrown error. */
  function Caught(err: JsValue): (r: LookupResult)
    ensures !r.ok && r.httpStatus.None? && r.apiCode.None? && r.user.None?
    ensures r.status == UpstreamError && r.nextAction == AskRetry
    ensures r.message == MsgTimeout <==> IsTimeout(err)
    ensures r.message in {MsgTimeout, MsgNetwork}
  {
    LookupResult(false, None, None, UpstreamError, AskRetry,
                 if IsTimeout(err) then MsgTimeout else MsgNetwork, None)
  }

  /** The error object a failed schema validation throws (a ZodError, not an axios error). */
  function Thrown(e: SchemaError): (v: JsValue)
    ensures !IsTimeout(v)
  {
    Obj(map["name" := Str("ZodError"), "path" := Str(e.field)])
  }

  /** The whole tool: it never throws, every outcome is classified. */
  function Lookup(phone: string, outcome: Outcome): (r: LookupResult)
    ensures outcome.Threw? ==> r == Caught(outcome.error)
    ensures r.ok ==> outcome.Responded? && outcome.httpStatus < 500 && r.httpStatus == Some(outcome.httpStatus)
    ensures r.httpStatus.None? <==> r.message in {MsgTimeout, MsgNetwork}
    ensures r.httpStatus.Some? ==> outcome.Responded? && r.apiCode == ApiCodeOf(ResponseData(outcome.body))
  {
    match outcome
    case Threw(err) => Caught(err)
    case Responded(httpStatus, body) =>
      match Classify(phone, httpStatus, body)
      case Success(r) => r
      case Failure(e) => Caught(Thrown(e))
  }

  // ---------------------------------------------------------------------------
  // Properties of the classification

  /** The `data` object of the response body, where the user fields are read from. */
  function UserData(body: JsValue): JsValue {
    Get(ResponseData(body), "data")
  }

  /** A value `x ?? fallback` may read: a string, or nothing at all. */
  predicate StringOrNullish(v: JsValue) {
    v.Str? || IsNullish(v)
  }

  /** The user fields a "00" response supplies are strings or missing, so they pass the schema. */
  predicate RegisteredUserValid(body: JsValue) {
    var d := UserData(body);
    && StringOrNullish(Get(d, "phone"))
    && (Get(d, "fullName").Str? || (IsNullish(Get(d, "fullName")) && StringOrNullish(Get(d, "name"))))
    && StringOrNullish(Get(d, "idNumber"))
    && StringOrNullish(Get(d, "email"))
  }

  /** The first string among the values, or null. */
  function FirstString(vs: seq<JsValue>): (r: Option<string>)
    ensures r.Some? <==> exists i :: 0 <= i < |vs| && vs[i].Str?
    ensures r.Some? ==> exists i :: 0 <= i < |vs| && vs[i].Str? && r.value == vs[i].s
                                  && forall j :: 0 <= j < i ==> !vs[j].Str?
  {
    if vs == [] then None
    else if vs[0].Str? then Some(vs[0].s)
    else
      var r := FirstString(vs[1..]);
      assert forall i :: 1 <= i < |vs| ==> vs[i] == vs[1..][i - 1];
      r
  }

  /** A 5xx status is an upstream failure whatever the body says, even with code "00" or "01". */
  lemma ServerErrorFirst(phone: string, httpStatus: int, body: JsValue)
    requires httpStatus >= 500
    ensures Lookup(phone, Responded(httpStatus, body))
         == LookupResult(false, Some(httpStatus), ApiCodeOf(ResponseData(body)), UpstreamError,
                         AskRetry, MsgUnavailable, None)
  {
  }

  /**
   * Below 500, code "00" means registered. The phone is the response's phone if it
   * is a string, else the one queried; the full name is `fullName`, else `name`, else null.
   */
  lemma RegisteredByCode(phone: string, httpStatus: int, body: JsValue)
    requires httpStatus < 500
    requires ApiCodeOf(ResponseData(body)) == Some("00")
    requires RegisteredUserValid(body)
    ensures var r := Lookup(phone, Responded(httpStatus, body));
      var d := UserData(body);
      && r.ok && r.status == Registered && r.nextAction == Continue
      && r.httpStatus == Some(httpStatus) && r.apiCode == Some("00") && r.message == MsgRegistered
      && r.user.Some?
      && r.user.value.phone == Some(if Get(d, "phone").Str? then Get(d, "phone").s else phone)
      && r.user.value.fullName == FirstString([Get(d, "fullName"), Get(d, "name")])
      && r.user.value.idNumber == FirstString([Get(d, "idNumber")])
      && r.user.value.email == FirstString([Get(d, "email")])
  {
    assert Conforms(RegisteredUser(ResponseData(body), phone));
  }

  /**
   * Below 500, code "00" with a user field that is neither a string nor null: the schema
   * rejects the record, the `catch` receives a non-axios error and reports a network error.
   */
  lemma RegisteredSchemaRejected(phone: string, httpStatus: int, body: JsValue)
    requires httpStatus < 500
    requires ApiCodeOf(ResponseData(body)) == Some("00")
    requires !RegisteredUserValid(body)
    ensures Lookup(phone, Responded(httpStatus, body))
         == LookupResult(false, None, None, UpstreamError, AskRetry, MsgNetwork, None)
  {
    var u := RegisteredUser(ResponseData(body), phone);
    assert !Conforms(u);
  }

  /** Below 500, code "01" means not registered, with only the queried phone in the user record. */
  lemma NotRegisteredByCode(phone: string, httpStatus: int, body: JsValue)
    requires httpStatus < 500
    requires ApiCodeOf(ResponseData(body)) == Some("01")
    ensures Lookup(phone, Responded(httpStatus, body))
         == LookupResult(true, Some(httpStatus), Some("01"), NotRegistered, AskToRegister,
                         MsgNotRegistered, Some(User(Some(phone), None, None, None)))
  {
  }

  /** HTTP 400 without code "00"/"01" is an invalid phone number, with an all-null user. */
  lemma InvalidInputOn400(phone: string, body: JsValue)
    requires ApiCodeOf(ResponseData(body)) != Some("00") && ApiCodeOf(ResponseData(body)) != Some("01")
    ensures Lookup(phone, Responded(400, body))
         == LookupResult(true, Some(400), ApiCodeOf(ResponseData(body)), InvalidInput, AskRetry,
                         MsgInvalidPhone, Some(User(None, None, None, None)))
  {
  }

  /** HTTP 404 without code "00"/"01" is treated as not registered, like code "01". */
  lemma NotRegisteredOn404(phone: string, body: JsValue)
    requires ApiCodeOf(ResponseData(body)) != Some("00") && ApiCodeOf(ResponseData(body)) != Some("01")
    ensures var r := Lookup(phone, Responded(404, body));
      && r == LookupResult(true, Some(404), ApiCodeOf(ResponseData(body)), NotRegistered, AskToRegister,
                           MsgNotFound, Some(User(Some(phone), None, None, None)))
      && r.status == Lookup(phone, Responded(200, Obj(map["code" := Str("01")]))).status
      && r.user == Lookup(phone, Responded(200, Obj(map["code" := Str("01")]))).user
  {
  }

  /** Every other response is handled but unconfirmed: escalate, and no user record. */
  lemma FallbackEscalates(phone: string, httpStatus: int, body: JsValue)
    requires httpStatus < 500 && httpStatus != 400 && httpStatus != 404
    requires ApiCodeOf(ResponseData(body)) != Some("00") && ApiCodeOf(ResponseData(body)) != Some("01")
    ensures Lookup(phone, Responded(httpStatus, body))
         == LookupResult(true, Some(httpStatus), ApiCodeOf(ResponseData(body)), UpstreamError, Escalate,
                         MsgUnconfirmed, None)
  {
  }

  /** The code checks come before the 400 and 404 checks: a 400 or 404 carrying "00"/"01" is classified by its code. */
  lemma CodeBeforeClientStatus(phone: string, httpStatus: int, body: JsValue)
    requires httpStatus == 400 || httpStatus == 404
    requires ApiCodeOf(ResponseData(body)) == Some("01")
      || (ApiCodeOf(ResponseData(body)) == Some("00") && RegisteredUserValid(body))
    ensures var r := Lookup(phone, Responded(httpStatus, body));
      && r.ok
      && r.status != InvalidInput
      && r.message != MsgInvalidPhone && r.message != MsgNotFound
      && (r.status == Registered <==> ApiCodeOf(ResponseData(body)) == Some("00"))
  {
    if ApiCodeOf(ResponseData(body)) == Some("00") {
      RegisteredByCode(phone, httpStatus, body);
    }
  }

  /**
   * A thrown error never escapes: it becomes a retryable upstream error with no status,
   * code or user, and the timeout message is used exactly for an axios ECONNABORTED error.
   */
  lemma TransportFailureClassified(phone: string, err: JsValue)
    ensures var r := Lookup(phone, Threw(err));
      && !r.ok && r.httpStatus.None? && r.apiCode.None?
      && r.status == UpstreamError && r.nextAction == AskRetry && r.user.None?
      && (r.message == MsgTimeout
          <==> Truthy(Get(err, "isAxiosError")) && Get(err, "code") == Str("ECONNABORTED"))
      && (r.message != MsgTimeout ==> r.message == MsgNetwork)
  {
  }

  /** `ok` is false exactly for a thrown error, a 5xx status, or a "00" user record the schema rejects. */
  lemma NotOkExactly(phone: string, outcome: Outcome)
    ensures !Lookup(phone, outcome).ok
        <==> || outcome.Threw?
             || outcome.httpStatus >= 500
             || (ApiCodeOf(ResponseData(outcome.body)) == Some("00") && !RegisteredUserValid(outcome.body))
  {
    if outcome.Responded? && outcome.httpStatus < 500 {
      var u := RegisteredUser(ResponseData(outcome.body), phone);
      assert Conforms(u) <==> RegisteredUserValid(outcome.body);
    }
  }

  /**
   * The recommended action agrees with the status on every path: registered continues,
   * not registered asks to register, invalid input asks to retry, and an upstream error
   * escalates exactly when the tool itself did not fail.
   */
  lemma ActionFollowsStatus(phone: string, outcome: Outcome)
    ensures var r := Lookup(phone, outcome);
      && (r.status == Registered ==> r.nextAction == Continue && r.ok)
      && (r.status == NotRegistered ==> r.nextAction == AskToRegister && r.ok)
      && (r.status == InvalidInput ==> r.nextAction == AskRetry && r.ok)
      && (r.status == UpstreamError ==> (r.nextAction == Escalate <==> r.ok))
      && (r.status == UpstreamError ==> r.nextAction in {Escalate, AskRetry})
      && (r.user.Some? <==> r.status != UpstreamError)
  {
  }

  /**
   * `String(code)` of a numeric code is never "00" or "01", so a response whose code is
   * a number (with a status that is not 5xx, 400 or 404) always falls through to escalation.
   */
  lemma NumericCodeFallsThrough(phone: string, httpStatus: int, body: JsValue)
    requires Get(ResponseData(body), "code").Num?
    requires httpStatus < 500 && httpStatus != 400 && httpStatus != 404
    ensures var r := Lookup(phone, Responded(httpStatus, body));
      r.ok && r.status == UpstreamError && r.nextAction == Escalate
  {
    NumberNeverZeroLed(Get(ResponseData(body), "code").n);
  }

  /** A concrete "00" response: the response's phone wins over the queried one, and `name` stands in for a missing `fullName`. */
  lemma ExampleRegistered()
    ensures Lookup("254701720503", Responded(200, Obj(map["code" := Str("00"),
                    "data" := Obj(map["phone" := Str("0701720503"), "name" := Str("Jane")])]))).user
         == Some(User(Some("0701720503"), Some("Jane"), None, None))
  {
    var body := Obj(map["code" := Str("00"), "data" := Obj(map["phone" := Str("0701720503"), "name" := Str("Jane")])]);
    assert ApiCodeOf(ResponseData(body)) == Some("00");
    RegisteredByCode("254701720503", 200, body);
  }

  /** A concrete HTTP 404 carrying code "01": classified by the code, not by the status. */
  lemma ExampleNotFoundWithCode()
    ensures Lookup("254795881812", Responded(404, Obj(map["code" := Str("01")]))).message == MsgNotRegistered
  {
    var body := Obj(map["code" := Str("01")]);
    assert ApiCodeOf(ResponseData(body)) == Some("01");
    NotRegisteredByCode("254795881812", 404, body);
  }

  /** A concrete numeric code 0 on HTTP 200: escalated, not treated as "00". */
  lemma ExampleNumericCode()
    ensures Lookup("254701720503", Responded(200, Obj(map["code" := Num(0)]))).nextAction == Escalate
  {
    NumericCodeFallsThrough("254701720503", 200, Obj(map["code" := Num(0)]));
  }
}
