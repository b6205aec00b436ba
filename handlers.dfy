/**
 * The six HTTP handlers (internal/ports/http/public/handlers.go) without their I/O. Each handler
 * first decides, from the decoded request alone, either to reply at once or to call the store
 * with a given argument; then it maps the store's answer to a reply. The `Serve` methods wire
 * the two halves to a `Storage`.
 *
 * The JSON body is given already decoded: `None` stands for a body `json.Decode` rejects.
 */
module Handlers {
  import opened Wrappers
  import opened Entities
  import opened Validation
  import opened StrConv
  import opened Postgres

  const StatusOK: int := 200
  const StatusCreated: int := 201
  const StatusNoContent: int := 204
  const StatusBadRequest: int := 400
  const StatusNotFound: int := 404
  const StatusInternalServerError: int := 500

  /**
   * The value a handler hands over for the body: `RespondWithError` writes plain text,
   * `RespondWithJSON` encodes a value. For a 204 net/http refuses any body, so that value never
   * reaches the client, which sees 204 with an empty body.
   */
  datatype Payload =
    | PlainText(text: string)
    | IdJson(id: Int64)                     // {"id": ...}
    | SubscriptionJson(sub: Subscriptions)
    | SubscriptionList(subs: seq<Subscriptions>)
    | JsonNull                              // a nil slice encodes as `null`
    | StatusJson(status: string)            // {"status": ...}
    | TotalCostJson(cost: TotalCostResponse)

  datatype Response = Response(status: int, payload: Payload)

  /** The first half of a handler: reply without touching the store, or call it with `arg`. */
  datatype Decision<T> = Reply(response: Response) | CallStore(arg: T)

  function BadRequest(message: string): Response {
    Response(StatusBadRequest, PlainText(message))
  }

  function InternalError(message: string): Response {
    Response(StatusInternalServerError, PlainText(message))
  }

  /** `r.URL.Query()`: every value given for each key, in order. */
  type QueryValues = map<string, seq<string>>

  /** `url.Values.Get`: the first value for the key, or "" when there is none. */
  function QueryGet(query: QueryValues, key: string): (v: string)
    ensures (key !in query || query[key] == []) ==> v == ""
    ensures key in query && query[key] != [] ==> v == query[key][0]
  {
    if key in query && |query[key]| > 0 then query[key][0] else ""
  }

  // ---------------------------------------------------------------------------------------
  // Shared steps

  /** A record every field check accepts. */
  predicate WellFormed(sub: Subscriptions) {
    && IsCanonicalUuid(sub.userId)
    && IsMonthYear(sub.startDate)
    && (sub.endDate.Some? ==> IsMonthYear(sub.endDate.value))
  }

  /** The field checks of Create and Update: user id, then start date, then end date when given. */
  function CheckSubscription(sub: Subscriptions): (r: Outcome<string>)
    ensures r.Pass? <==> WellFormed(sub)
    ensures !IsCanonicalUuid(sub.userId) ==> r == Fail(UuidFormatError(sub.userId))
    ensures IsCanonicalUuid(sub.userId) && !IsMonthYear(sub.startDate) ==> r == Fail(DateFormatError(sub.startDate))
    ensures (IsCanonicalUuid(sub.userId) && IsMonthYear(sub.startDate) && sub.endDate.Some?
             && !IsMonthYear(sub.endDate.value)) ==> r == Fail(DateFormatError(sub.endDate.value))
  {
    var user := ValidateUUID(sub.userId);
    if user.Fail? then user
    else
      var start := ValidateDate(sub.startDate);
      if start.Fail? then start
      else if sub.endDate.Some? then ValidateDate(sub.endDate.value)
      else Pass
  }

  /** The path id through `strconv.ParseInt(idStr, 10, 64)`. */
  function ParseId(idText: string): (d: Decision<Int64>)
    ensures d.CallStore? <==> IsDecimal(idText) && InInt64Range(DecimalValue(idText))
    ensures d.CallStore? ==> d.arg as int == DecimalValue(idText)
    ensures d.Reply? ==> d.response == BadRequest("invalid id")
  {
    var parsed := ParseInt(idText);
    if parsed.None? then Reply(BadRequest("invalid id")) else CallStore(parsed.value)
  }

  // ---------------------------------------------------------------------------------------
  // POST /subscriptions

  function CreateDecide(body: Option<Subscriptions>): (d: Decision<Subscriptions>)
    ensures body.None? ==> d == Reply(BadRequest("invalid request body"))
    ensures d.CallStore? <==> body.Some? && WellFormed(body.value)
    ensures d.CallStore? ==> d.arg == body.value
    ensures body.Some? && !WellFormed(body.value) ==>
      d == Reply(BadRequest(CheckSubscription(body.value).error))
  {
    if body.None? then Reply(BadRequest("invalid request body"))
    else
      var checked := CheckSubscription(body.value);
      if checked.Fail? then Reply(BadRequest(checked.error)) else CallStore(body.value)
  }

  function CreateRespond(stored: Result<Int64, StoreError>): (r: Response)
    ensures r.status == StatusCreated <==> stored.Success?
    ensures stored.Success? ==> r.payload == IdJson(stored.value)
    ensures stored.Failure? ==> r == InternalError("failed to create subscription")
  {
    match stored
    case Success(id) => Response(StatusCreated, IdJson(id))
    case Failure(_) => InternalError("failed to create subscription")
  }

  // ---------------------------------------------------------------------------------------
  // GET /subscriptions/{id}

  /** Every store error, a database failure as much as a missing row, is reported as 404. */
  function GetRespond(fetched: Result<Subscriptions, StoreError>): (r: Response)
    ensures r.status == StatusOK <==> fetched.Success?
    ensures fetched.Success? ==> r.payload == SubscriptionJson(fetched.value)
    ensures fetched.Failure? ==> r == Response(StatusNotFound, PlainText("subscription not found"))
  {
    match fetched
    case Success(sub) => Response(StatusOK, SubscriptionJson(sub))
    case Failure(_) => Response(StatusNotFound, PlainText("subscription not found"))
  }

  // ---------------------------------------------------------------------------------------
  // PUT /subscriptions/{id}

  /** The id is parsed before the body is looked at; then the checks of Create. */
  function UpdateDecide(idText: string, body: Option<Subscriptions>): (d: Decision<(Int64, Subscriptions)>)
    ensures ParseId(idText).Reply? ==> d == Reply(BadRequest("invalid id"))
    ensures d.CallStore? <==> ParseId(idText).CallStore? && CreateDecide(body).CallStore?
    ensures d.CallStore? ==> d.arg == (ParseId(idText).arg, body.value)
    ensures ParseId(idText).CallStore? && CreateDecide(body).Reply? ==> d == Reply(CreateDecide(body).response)
  {
    match ParseId(idText)
    case Reply(response) => Reply(response)
    case CallStore(id) =>
      match CreateDecide(body)
      case Reply(response) => Reply(response)
      case CallStore(sub) => CallStore((id, sub))
  }

  /** Every store error, a missing row included, is reported as 500. */
  function UpdateRespond(updated: Outcome<StoreError>): (r: Response)
    ensures r.status == StatusOK <==> updated.Pass?
    ensures updated.Pass? ==> r.payload == StatusJson("updated")
    ensures updated.Fail? ==> r == InternalError("failed to update subscription")
  {
    if updated.Pass? then Response(StatusOK, StatusJson("updated"))
    else InternalError("failed to update subscription")
  }

  // ---------------------------------------------------------------------------------------
  // DELETE /subscriptions/{id}

  /** Every store error, a missing row included, is reported as 500. */
  function DeleteRespond(deleted: Outcome<StoreError>): (r: Response)
    ensures r.status == StatusNoContent <==> deleted.Pass?
    ensures deleted.Pass? ==> r.payload == StatusJson("deleted")
    ensures deleted.Fail? ==> r == InternalError("failed to delete subscription")
  {
    if deleted.Pass? then Response(StatusNoContent, StatusJson("deleted"))
    else InternalError("failed to delete subscription")
  }

  // ---------------------------------------------------------------------------------------
  // GET /subscriptions

  /** A query value, as a filter: supplied exactly when it is non-empty. */
  function Supplied(v: string): (o: Option<string>)
    ensures o.Some? <==> v != ""
    ensures o.Some? ==> o.value == v
  {
    if v == "" then None else Some(v)
  }

  /** The listing filter the handler builds: no format checks at all. */
  function QueryListFilter(query: QueryValues): ListFilter {
    ListFilter(Supplied(QueryGet(query, "user_id")), Supplied(QueryGet(query, "service_name")),
               Supplied(QueryGet(query, "start_date")), Supplied(QueryGet(query, "end_date")))
  }

  /** The handler's successive `filter.X = &v` assignments. */
  method ListFilterFromQuery(query: QueryValues) returns (filter: ListFilter)
    ensures filter == QueryListFilter(query)
  {
    filter := NoListFilter();
    var v := QueryGet(query, "user_id");
    if v != "" {
      filter := filter.(userId := Some(v));
    }
    v := QueryGet(query, "service_name");
    if v != "" {
      filter := filter.(serviceName := Some(v));
    }
    v := QueryGet(query, "start_date");
    if v != "" {
      filter := filter.(startDate := Some(v));
    }
    v := QueryGet(query, "end_date");
    if v != "" {
      filter := filter.(endDate := Some(v));
    }
  }

  function ListRespond(listed: Result<seq<Subscriptions>, StoreError>): (r: Response)
    ensures r.status == StatusOK <==> listed.Success?
    ensures listed.Success? && listed.value == [] ==> r.payload == JsonNull
    ensures listed.Success? && listed.value != [] ==> r.payload == SubscriptionList(listed.value)
    ensures listed.Failure? ==> r == InternalError("failed to list subscriptions")
  {
    match listed
    case Success(subs) => Response(StatusOK, if subs == [] then JsonNull else SubscriptionList(subs))
    case Failure(_) => InternalError("failed to list subscriptions")
  }

  // ---------------------------------------------------------------------------------------
  // GET /subscriptions/cost

  /**
   * The cost handler's checks: both period bounds present, then each a valid `MM-YYYY`, start
   * first; then the user id, checked only when given; the service name is passed through.
   */
  function CostDecide(query: QueryValues): (d: Decision<CostFilter>)
    ensures var start, end := QueryGet(query, "start_period"), QueryGet(query, "end_period");
      var user := QueryGet(query, "user_id");
      && ((start == "" || end == "") ==> d == Reply(BadRequest("start_period and end_period are required")))
      && (start != "" && end != "" && !IsMonthYear(start) ==>
            d == Reply(BadRequest("invalid start_period format: " + DateFormatError(start))))
      && (start != "" && end != "" && IsMonthYear(start) && !IsMonthYear(end) ==>
            d == Reply(BadRequest("invalid end_period format: " + DateFormatError(end))))
      && (start != "" && end != "" && IsMonthYear(start) && IsMonthYear(end) && user != "" && !IsCanonicalUuid(user) ==>
            d == Reply(BadRequest("invalid user_id format: " + UuidFormatError(user))))
      && (d.CallStore? <==> start != "" && end != "" && IsMonthYear(start) && IsMonthYear(end)
                            && (user != "" ==> IsCanonicalUuid(user)))
      && (d.CallStore? ==> d.arg == CostFilter(Supplied(user), Supplied(QueryGet(query, "service_name")), start, end))
  {
    var start, end := QueryGet(query, "start_period"), QueryGet(query, "end_period");
    var user := QueryGet(query, "user_id");
    if start == "" || end == "" then Reply(BadRequest("start_period and end_period are required"))
    else if ValidateDate(start).Fail? then Reply(BadRequest("invalid start_period format: " + ValidateDate(start).error))
    else if ValidateDate(end).Fail? then Reply(BadRequest("invalid end_period format: " + ValidateDate(end).error))
    else if user != "" && ValidateUUID(user).Fail? then
      Reply(BadRequest("invalid user_id format: " + ValidateUUID(user).error))
    else CallStore(CostFilter(Supplied(user), Supplied(QueryGet(query, "service_name")), start, end))
  }

  /** The cost handler as written: early returns, then the filter built field by field. */
  method CostFilterFromQuery(query: QueryValues) returns (d: Decision<CostFilter>)
    ensures d == CostDecide(query)
  {
    var startPeriod := QueryGet(query, "start_period");
    var endPeriod := QueryGet(query, "end_period");
    if startPeriod == "" || endPeriod == "" {
      return Reply(BadRequest("start_period and end_period are required"));
    }
    var checked := ValidateDate(startPeriod);
    if checked.Fail? {
      return Reply(BadRequest("invalid start_period format: " + checked.error));
    }
    checked := ValidateDate(endPeriod);
    if checked.Fail? {
      return Reply(BadRequest("invalid end_period format: " + checked.error));
    }
    var filter := CostFilter(None, None, startPeriod, endPeriod);
    var userId := QueryGet(query, "user_id");
    if userId != "" {
      checked := ValidateUUID(userId);
      if checked.Fail? {
        return Reply(BadRequest("invalid user_id format: " + checked.error));
      }
      filter := filter.(userId := Some(userId));
    }
    var serviceName := QueryGet(query, "service_name");
    if serviceName != "" {
      filter := filter.(serviceName := Some(serviceName));
    }
    d := CallStore(filter);
  }

  function CostRespond(total: Result<Int64, StoreError>): (r: Response)
    ensures r.status == StatusOK <==> total.Success?
    ensures total.Success? ==> r.payload == TotalCostJson(TotalCostResponse(total.value))
    ensures total.Failure? ==> r == InternalError("failed to calculate total cost")
  {
    match total
    case Success(cost) => Response(StatusOK, TotalCostJson(TotalCostResponse(cost)))
    case Failure(_) => InternalError("failed to calculate total cost")
  }

  // ---------------------------------------------------------------------------------------
  // The handlers over a store

  method ServeCreate(store: Storage, body: Option<Subscriptions>, dbError: bool) returns (resp: Response)
    requires store.Valid()
    modifies store
    ensures store.Valid()
    ensures CreateDecide(body).Reply? ==>
      resp == CreateDecide(body).response && store.rows == old(store.rows) && store.nextId == old(store.nextId)
    ensures CreateDecide(body).CallStore? && (dbError || old(store.nextId) > MaxInt64) ==>
      resp == InternalError("failed to create subscription") && store.rows == old(store.rows)
      && store.nextId == old(store.nextId)
    ensures CreateDecide(body).CallStore? && !(dbError || old(store.nextId) > MaxInt64) ==>
      && resp == Response(StatusCreated, IdJson(old(store.nextId) as Int64))
      && store.rows == old(store.rows)[old(store.nextId) as Int64 := body.value]
      && store.nextId == old(store.nextId) + 1
  {
    match CreateDecide(body)
    case Reply(response) => resp := response;
    case CallStore(sub) =>
      var stored := store.CreateSubscription(sub, dbError);
      resp := CreateRespond(stored);
  }

  method ServeGet(store: Storage, idText: string, dbError: bool) returns (resp: Response)
    ensures ParseId(idText).Reply? ==> resp == BadRequest("invalid id")
    ensures resp.status == StatusOK <==> ParseId(idText).CallStore? && !dbError && ParseId(idText).arg in store.rows
    ensures resp.status == StatusOK ==> resp.payload == SubscriptionJson(store.rows[ParseId(idText).arg])
    ensures ParseId(idText).CallStore? && resp.status != StatusOK ==>
      resp == Response(StatusNotFound, PlainText("subscription not found"))
  {
    match ParseId(idText)
    case Reply(response) => resp := response;
    case CallStore(id) =>
      var fetched := store.GetSubscription(id, dbError);
      resp := GetRespond(fetched);
  }

  method ServeUpdate(store: Storage, idText: string, body: Option<Subscriptions>, dbError: bool) returns (resp: Response)
    requires store.Valid()
    modifies store
    ensures store.Valid() && store.nextId == old(store.nextId)
    ensures UpdateDecide(idText, body).Reply? ==>
      resp == UpdateDecide(idText, body).response && store.rows == old(store.rows)
    ensures UpdateDecide(idText, body).CallStore? ==>
      var (id, sub) := UpdateDecide(idText, body).arg;
      if !dbError && id in old(store.rows) then
        resp == Response(StatusOK, StatusJson("updated")) && store.rows == old(store.rows)[id := sub]
      else
        resp == InternalError("failed to update subscription") && store.rows == old(store.rows)
  {
    match UpdateDecide(idText, body)
    case Reply(response) => resp := response;
    case CallStore(arg) =>
      var updated := store.UpdateSubscription(arg.0, arg.1, dbError);
      resp := UpdateRespond(updated);
  }

  method ServeDelete(store: Storage, idText: string, dbError: bool) returns (resp: Response)
    requires store.Valid()
    modifies store
    ensures store.Valid() && store.nextId == old(store.nextId)
    ensures ParseId(idText).Reply? ==> resp == BadRequest("invalid id") && store.rows == old(store.rows)
    ensures ParseId(idText).CallStore? ==>
      var id := ParseId(idText).arg;
      if !dbError && id in old(store.rows) then
        resp == Response(StatusNoContent, StatusJson("deleted")) && store.rows == old(store.rows) - {id}
      else
        resp == InternalError("failed to delete subscription") && store.rows == old(store.rows)
  {
    match ParseId(idText)
    case Reply(response) => resp := response;
    case CallStore(id) =>
      var deleted := store.DeleteSubscription(id, dbError);
      resp := DeleteRespond(deleted);
  }

  method ServeList(store: Storage, query: QueryValues, dbError: bool) returns (resp: Response)
    ensures dbError ==> resp == InternalError("failed to list subscriptions")
    ensures !dbError ==> resp.status == StatusOK
    ensures !dbError && Listed(store.rows, QueryListFilter(query)) == multiset{} ==> resp.payload == JsonNull
    ensures !dbError && Listed(store.rows, QueryListFilter(query)) != multiset{} ==>
      resp.payload.SubscriptionList? && multiset(resp.payload.subs) == Listed(store.rows, QueryListFilter(query))
  {
    var filter := ListFilterFromQuery(query);
    var listed := store.ListSubscriptions(filter, dbError);
    resp := ListRespond(listed);
  }

  method ServeCost(store: Storage, query: QueryValues, dbError: bool) returns (resp: Response)
    ensures CostDecide(query).Reply? ==> resp == CostDecide(query).response
    ensures CostDecide(query).CallStore? && dbError ==> resp == InternalError("failed to calculate total cost")
    ensures CostDecide(query).CallStore? && !dbError ==>
      var total := TotalCost(store.rows, CostDecide(query).arg);
      if InInt64Range(total) then resp == Response(StatusOK, TotalCostJson(TotalCostResponse(total as Int64)))
      else resp == InternalError("failed to calculate total cost")
  {
    var decided := CostFilterFromQuery(query);
    match decided
    case Reply(response) => resp := response;
    case CallStore(filter) =>
      var total := store.CalculateTotalCost(filter, dbError);
      resp := CostRespond(total);
  }

  // ---------------------------------------------------------------------------------------
  // Properties across handlers

  /** A failing field check is never followed by a store call, whatever the id. */
  lemma RejectedBodyNeverStored(idText: string, sub: Subscriptions)
    requires !WellFormed(sub)
    ensures CreateDecide(Some(sub)).Reply? && CreateDecide(Some(sub)).response.status == StatusBadRequest
    ensures UpdateDecide(idText, Some(sub)).Reply? && UpdateDecide(idText, Some(sub)).response.status == StatusBadRequest
  {
  }

  /** The id returned by Create, written in decimal, is the path id Get parses back. */
  lemma CreatedIdIsGettable(id: Int64)
    ensures ParseId(FormatInt(id)) == CallStore(id)
  {
    ParseFormatRoundTrip(id);
  }
}
