/**
 * The decision logic of the builder admin HTTP handlers
 * (components/builder-admin/src/http/handlers.rs): which checks a request
 * passes through, in which order, which status each rejection gets, and
 * which broker message, if any, is sent. Request decoding, the broker and
 * `AccountSearch::from_search_pair` are inputs.
 */
module Handlers {
  import opened Wrappers
  import Privilege

  // ---------------------------------------------------------------------
  // Unsigned integer parsing (`str::parse::<u32>`, `str::parse::<u64>`)
  // ---------------------------------------------------------------------

  const U32_LIMIT: nat := 0x1_0000_0000
  const U64_LIMIT: nat := 0x1_0000_0000_0000_0000

  predicate IsDigit(c: char) {
    '0' <= c <= '9'
  }

  predicate AllDigits(s: string) {
    forall i :: 0 <= i < |s| ==> IsDigit(s[i])
  }

  /** The value of a string of decimal digits, most significant first. */
  function DigitsValue(s: string): nat
    requires AllDigits(s)
  {
    if s == [] then 0 else DigitsValue(s[..|s| - 1]) * 10 + (s[|s| - 1] as int - '0' as int)
  }

  /** The digits of an unsigned literal: what follows one optional leading `+`. */
  function UnsignedDigits(s: string): string {
    if |s| > 0 && s[0] == '+' then s[1..] else s
  }

  /**
   * Rust's `str::parse` for an unsigned integer type whose values lie below
   * `limit`: an optional `+`, then one or more ASCII digits whose value fits.
   * Empty text, a sign alone, a `-`, any other character and an overflowing
   * value are all errors.
   */
  function ParseUnsigned(s: string, limit: nat): (r: Option<nat>)
    ensures r.Some? ==> r.value < limit
    ensures r.Some? <==> |UnsignedDigits(s)| > 0 && AllDigits(UnsignedDigits(s)) && DigitsValue(UnsignedDigits(s)) < limit
    ensures s == [] || s == "+" || s[0] == '-' ==> r.None?
  {
    var digits := UnsignedDigits(s);
    if |digits| > 0 && AllDigits(digits) && DigitsValue(digits) < limit then Some(DigitsValue(digits)) else None
  }

  function DigitChar(d: nat): (c: char)
    requires d < 10
    ensures IsDigit(c) && c as int - '0' as int == d
  {
    ('0' as int + d) as char
  }

  /** The canonical decimal rendering of a natural number. */
  function Decimal(n: nat): (s: string)
    ensures |s| > 0 && AllDigits(s)
  {
    if n < 10 then [DigitChar(n)] else Decimal(n / 10) + [DigitChar(n % 10)]
  }

  lemma {:induction false} DecimalValue(n: nat)
    ensures DigitsValue(Decimal(n)) == n
  {
    if n >= 10 {
      DecimalValue(n / 10);
      var s := Decimal(n);
      assert s[..|s| - 1] == Decimal(n / 10);
    }
  }

  /** Parsing the decimal rendering of a number gives the number back exactly when it fits. */
  lemma ParseDecimal(n: nat, limit: nat)
    ensures ParseUnsigned(Decimal(n), limit) == if n < limit then Some(n) else None
  {
    DecimalValue(n);
  }

  // ---------------------------------------------------------------------
  // Requests, messages and responses
  // ---------------------------------------------------------------------

  /** A parsed JSON value (`serde_json::Value`). */
  datatype Json =
    | JNull
    | JBool(b: bool)
    | JNumber(n: int)
    | JString(s: string)
    | JArray(items: seq<Json>)
    | JObject(fields: map<string, Json>)

  /** `Value::find`: the member of an object under `key`; nothing for any other value. */
  function Lookup(v: Json, key: string): Option<Json> {
    if v.JObject? && key in v.fields then Some(v.fields[key]) else None
  }

  /** The member under `key` when it is a JSON string. */
  function StringField(v: Json, key: string): Option<string> {
    match Lookup(v, key)
    case Some(JString(s)) => Some(s)
    case _ => None
  }

  /**
   * What a body parser makes of a request body: `Ok(Some(value))`,
   * `Ok(None)` for an empty body, or `Err(_)` for a body that does not parse.
   */
  datatype Parsed<T> = Parsed(value: T) | NoBody | Malformed

  /** A request as the handlers that ignore it receive it. */
  datatype Request = Request(params: map<string, string>, body: Option<string>)

  datatype Account = Account(id: nat, name: string)

  /** The typed account query that `from_search_pair` builds. */
  datatype AccountSearch = AccountSearch(key: string, value: string)

  datatype TeamIdList = TeamIdList(teams: seq<nat>)

  datatype GrantFlagToTeams = GrantFlagToTeams(flag: nat, teams: seq<nat>)

  /** A typed error the broker returns instead of a reply. */
  datatype NetError = NetError(code: int, message: string)

  /** A message a handler routes through the broker. */
  datatype Message = SearchAccounts(search: AccountSearch) | GrantFlag(grant: GrantFlagToTeams)

  /** The broker's answers to the two kinds of message. */
  datatype Broker = Broker(
    accounts: AccountSearch -> Result<Account, NetError>,
    grants: GrantFlagToTeams -> Result<(), NetError>)

  /** `AccountSearch::from_search_pair`: a query, or the message of a translation error. */
  type SearchPair = (string, string) -> Result<AccountSearch, string>

  datatype HttpStatus = Ok | NoContent | BadRequest | UnprocessableEntity

  datatype Response =
    | Plain(status: HttpStatus)                          // Response::with(status)
    | WithMessage(status: HttpStatus, message: string)   // Response::with((status, message))
    | AccountBody(status: HttpStatus, account: Account)  // render_json(status, &account)
    | FeaturesBody(status: HttpStatus, features: map<string, Privilege.Flags>)
    | NetFailure(error: NetError)                        // render_net_error(&err)
    | Panic                                              // an `unwrap` of an error

  /** What a handler answers, and the broker messages it sent on the way. */
  datatype Reply = Reply(response: Response, sent: seq<Message>)

  /** A client error: the request was refused before any broker message. */
  predicate IsRejection(response: Response) {
    (response.Plain? || response.WithMessage?) &&
    (response.status == BadRequest || response.status == UnprocessableEntity)
  }

  // ---------------------------------------------------------------------
  // Handlers
  // ---------------------------------------------------------------------

  /** `account_features_show`: answers 200 whatever the request. */
  function AccountFeaturesShow(req: Request): (r: Reply)
    ensures r == Reply(Plain(Ok), [])
  {
    Reply(Plain(Ok), [])
  }

  /** `feature_show`: the grant listing is not implemented; answers 200 whatever the request. */
  function FeatureShow(req: Request): (r: Reply)
    ensures r == Reply(Plain(Ok), [])
  {
    Reply(Plain(Ok), [])
  }

  /** `status`: the liveness probe; answers 200 whatever the request. */
  function Status(req: Request): (r: Reply)
    ensures r == Reply(Plain(Ok), [])
  {
    Reply(Plain(Ok), [])
  }

  /** `conn.route::<AccountSearch, Account>`: one message, and the account or the rendered error. */
  function RouteAccountSearch(search: AccountSearch, broker: Broker): (r: Reply)
    ensures r.sent == [SearchAccounts(search)]
    ensures broker.accounts(search).Success? ==> r.response == AccountBody(Ok, broker.accounts(search).value)
    ensures broker.accounts(search).Failure? ==> r.response == NetFailure(broker.accounts(search).error)
    ensures !IsRejection(r.response)
  {
    var response := match broker.accounts(search)
      case Success(account) => AccountBody(Ok, account)
      case Failure(err) => NetFailure(err);
    Reply(response, [SearchAccounts(search)])
  }

  /**
   * `account_show`: the `id` path parameter must parse as a `u64`, else 400
   * with no broker message; then the `from_search_pair("id", id)` query is
   * unwrapped and routed.
   */
  function AccountShow(id: string, fromSearchPair: SearchPair, broker: Broker): (r: Reply)
    ensures ParseUnsigned(id, U64_LIMIT).None? <==> r == Reply(Plain(BadRequest), [])
    ensures IsRejection(r.response) <==> ParseUnsigned(id, U64_LIMIT).None?
    ensures r.response.Panic? <==> ParseUnsigned(id, U64_LIMIT).Some? && fromSearchPair("id", id).Failure?
    ensures r.sent != [] <==> ParseUnsigned(id, U64_LIMIT).Some? && fromSearchPair("id", id).Success?
    ensures r.sent != [] ==> r == RouteAccountSearch(fromSearchPair("id", id).value, broker)
    ensures r.sent != [] && broker.accounts(r.sent[0].search).Success? ==>
      r.response == AccountBody(Ok, broker.accounts(r.sent[0].search).value)
    ensures r.sent != [] && broker.accounts(r.sent[0].search).Failure? ==>
      r.response == NetFailure(broker.accounts(r.sent[0].search).error)
  {
    if ParseUnsigned(id, U64_LIMIT).None? then Reply(Plain(BadRequest), [])
    else
      match fromSearchPair("id", id)
      case Failure(_) => Reply(Panic, [])
      case Success(search) => RouteAccountSearch(search, broker)
  }

  /** The decimal rendering of any `u64` passes `account_show`'s check and is routed. */
  lemma AccountShowRoutesDecimalIds(n: nat, fromSearchPair: SearchPair, broker: Broker)
    requires n < U64_LIMIT && fromSearchPair("id", Decimal(n)).Success?
    ensures AccountShow(Decimal(n), fromSearchPair, broker).sent == [SearchAccounts(fromSearchPair("id", Decimal(n)).value)]
  {
    ParseDecimal(n, U64_LIMIT);
  }

  /** A non-numeric id is refused with 400 before any query is built. */
  lemma AccountShowRejectsNonNumericId(fromSearchPair: SearchPair, broker: Broker)
    ensures AccountShow("not-a-number", fromSearchPair, broker) == Reply(Plain(BadRequest), [])
  {
  }

  /**
   * `feature_update`: the `id` path parameter must parse as a `u32` (else
   * 400), checked before the body, which must decode as a `TeamIdList`
   * (else 422); only then is the grant routed, and its success is 204.
   */
  function FeatureUpdate(id: string, body: Parsed<TeamIdList>, broker: Broker): (r: Reply)
    ensures ParseUnsigned(id, U32_LIMIT).None? ==> r == Reply(Plain(BadRequest), [])
    ensures ParseUnsigned(id, U32_LIMIT).Some? && !body.Parsed? ==> r == Reply(Plain(UnprocessableEntity), [])
    ensures IsRejection(r.response) <==> r.sent == []
    ensures r.sent != [] <==> ParseUnsigned(id, U32_LIMIT).Some? && body.Parsed?
    ensures r.sent != [] ==>
      r.sent == [GrantFlag(GrantFlagToTeams(ParseUnsigned(id, U32_LIMIT).value, body.value.teams))]
    ensures r.response == Plain(NoContent) <==> r.sent != [] && broker.grants(r.sent[0].grant).Success?
    ensures r.sent != [] && broker.grants(r.sent[0].grant).Failure? ==>
      r.response == NetFailure(broker.grants(r.sent[0].grant).error)
  {
    match ParseUnsigned(id, U32_LIMIT)
    case None => Reply(Plain(BadRequest), [])
    case Some(flag) =>
      match body
      case Parsed(list) =>
        var msg := GrantFlagToTeams(flag, list.teams);
        var response := match broker.grants(msg)
          case Success(_) => Plain(NoContent)
          case Failure(err) => NetFailure(err);
        Reply(response, [GrantFlag(msg)])
      case _ => Reply(Plain(UnprocessableEntity), [])
  }

  /** `features_list`: exactly the two defined flags, ADMIN = 1 and BUILDER = 2, by name. */
  function FeaturesList(req: Request): (r: Reply)
    ensures r.sent == [] && r.response.FeaturesBody? && r.response.status == Ok
    ensures r.response.features.Keys == {"ADMIN", "BUILDER"}
    ensures r.response.features["ADMIN"] == Privilege.ADMIN == 1
    ensures r.response.features["BUILDER"] == Privilege.BUILDER == 2
    ensures forall name :: name in r.response.features ==>
      Privilege.FromBits(r.response.features[name]) == Some(r.response.features[name])
  {
    var features: map<string, Privilege.Flags> := map[];
    var features := features["ADMIN" := Privilege.ADMIN];
    var features := features["BUILDER" := Privilege.BUILDER];
    Reply(FeaturesBody(Ok, features), [])
  }

  /**
   * `search_account`: a pair the translator refuses is answered 422 with
   * the translator's message and no broker message; a query it builds is
   * routed.
   */
  function SearchAccount(key: string, value: string, fromSearchPair: SearchPair, broker: Broker): (r: Reply)
    ensures fromSearchPair(key, value).Failure? ==>
      r == Reply(WithMessage(UnprocessableEntity, fromSearchPair(key, value).error), [])
    ensures fromSearchPair(key, value).Success? ==> r == RouteAccountSearch(fromSearchPair(key, value).value, broker)
    ensures r.sent != [] ==> r.sent == [SearchAccounts(fromSearchPair(key, value).value)]
    ensures r.sent != [] && broker.accounts(r.sent[0].search).Success? ==>
      r.response == AccountBody(Ok, broker.accounts(r.sent[0].search).value)
    ensures r.sent != [] && broker.accounts(r.sent[0].search).Failure? ==>
      r.response == NetFailure(broker.accounts(r.sent[0].search).error)
    ensures IsRejection(r.response) <==> r.sent == []
  {
    match fromSearchPair(key, value)
    case Success(search) => RouteAccountSearch(search, broker)
    case Failure(message) => Reply(WithMessage(UnprocessableEntity, message), [])
  }

  /** A search body that passes every check of `search`: string `attr` and `value`, entity "account". */
  predicate WellFormedSearch(body: Parsed<Json>) {
    && body.Parsed?
    && StringField(body.value, "attr").Some?
    && StringField(body.value, "value").Some?
    && Lookup(body.value, "entity") == Some(JString("account"))
  }

  /**
   * `search`: an absent or unparseable body is 400; then `attr`, then
   * `value` must be JSON strings, and `entity` must be the string
   * "account", each failure 422; only a body passing all three reaches
   * `search_account`.
   */
  function Search(body: Parsed<Json>, fromSearchPair: SearchPair, broker: Broker): (r: Reply)
    ensures !body.Parsed? ==> r == Reply(Plain(BadRequest), [])
    ensures body.Parsed? && !WellFormedSearch(body) ==> r == Reply(Plain(UnprocessableEntity), [])
    ensures WellFormedSearch(body) ==>
      r == SearchAccount(StringField(body.value, "attr").value, StringField(body.value, "value").value, fromSearchPair, broker)
    ensures IsRejection(r.response) <==> r.sent == []
  {
    if !body.Parsed? then Reply(Plain(BadRequest), [])
    else
      var json := body.value;
      match StringField(json, "attr")
      case None => Reply(Plain(UnprocessableEntity), [])
      case Some(attr) =>
        match StringField(json, "value")
        case None => Reply(Plain(UnprocessableEntity), [])
        case Some(value) =>
          if Lookup(json, "entity") == Some(JString("account")) then SearchAccount(attr, value, fromSearchPair, broker)
          else Reply(Plain(UnprocessableEntity), [])
  }

  /**
   * `search` sends a broker message only for a well-formed body whose pair
   * the translator accepts, and then exactly that query.
   */
  lemma SearchRoutesOnlyTranslatedQueries(body: Parsed<Json>, fromSearchPair: SearchPair, broker: Broker)
    ensures var r := Search(body, fromSearchPair, broker);
      r.sent != [] <==>
        WellFormedSearch(body) &&
        fromSearchPair(StringField(body.value, "attr").value, StringField(body.value, "value").value).Success?
    ensures var r := Search(body, fromSearchPair, broker);
      r.sent != [] ==>
        r.sent == [SearchAccounts(fromSearchPair(StringField(body.value, "attr").value, StringField(body.value, "value").value).value)]
  {
  }

  /** A search for any entity other than "account" is refused with 422 and sends nothing. */
  lemma SearchRejectsOtherEntities(fields: map<string, Json>, fromSearchPair: SearchPair, broker: Broker)
    requires "entity" in fields && fields["entity"] != JString("account")
    ensures Search(Parsed(JObject(fields)), fromSearchPair, broker) == Reply(Plain(UnprocessableEntity), [])
  {
  }
}
