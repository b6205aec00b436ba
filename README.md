# Subscription records service, modelled in Dafny

This project models the core of `tz_effective`, a small REST service that keeps users' paid
subscriptions to online services and sums their cost over a period of months. The model has
three parts.

- **Format validators.** `ValidateUUID` and `ValidateDate` are written as matches of their
  regular expressions. A small RE2 subset (`regexp.dfy`) gives each pattern its meaning as a
  language. Each validator is proved equal to a character-by-character predicate.
  `\d` is ASCII only, and `$` means end of text.
- **The Postgres store.** `Postgres.Storage` is a class that holds the `subscriptions` table as
  a map from id to record, plus the id sequence's next value.
  - Create, Get, Update and Delete change or read that map.
  - ListSubscriptions and CalculateTotalCost first build their WHERE clause as the source does:
    a `paramIndex` counter and one numbered placeholder per supplied filter.
  - The WHERE clause is then evaluated row by row in SQL's three-valued logic (`sql.dfy`).
    NULL makes a comparison UNKNOWN, and UNKNOWN drops the row.
  - The meaning of each query is proved: the listing returns exactly the rows satisfying every
    supplied filter, and the total is the sum of prices over the rows that overlap the period.
  - Dates are compared as their stored `MM-YYYY` text, in lexicographic order.
    `periods.dfy` shows that this is month order within a year but not across years.
- **The handlers.** Each of the six handlers has two halves.
  - A pure decision function takes the decoded request and either replies at once or names
    the store call.
  - A pure response function maps the store's answer to a status code and payload.
  - `Serve*` methods connect the two halves to a `Storage`.

The validators, the parser and the decision functions are Dafny functions, so they are total
and deterministic and change no state.

The database's own failures (lost connection, failed scan) are a `dbError` argument of each
store method. An HTTP request body is given already decoded: `None` stands for a body that does
not decode. `strconv.ParseInt` is modelled for base 10 and 64 bits (`strconv.dfy`), together
with the decimal rendering that a client reads the created id from.

The code and its doc comments disagree in places; the model follows the code.
- Update and Delete map every store error to 500, a missing row included. The doc comments
  promise 404.
- Get maps every store error to 404, a database failure included.
- Delete answers 204 and still hands a `{"status":"deleted"}` value to the encoder. net/http
  refuses a body on a 204, so the client sees 204 with an empty body. The model's `Payload` is
  the value handed over, not the bytes that arrive.
- An empty listing is a nil slice, which encodes as JSON `null`, not `[]`.

## Model

| member | source | states |
|---|---|---|
| Validation.ValidateUUID | internal/ports/http/public/utils/validation.go:8-15 | passes iff the input has 36 characters, a `-` exactly at positions 8, 13, 18 and 23, and a lowercase hex digit everywhere else; on failure the message is `invalid UUID format: ` followed by the input |
| Validation.ValidateDate | internal/ports/http/public/utils/validation.go:17-23 | passes iff the input has 7 characters, two ASCII digits forming a month from 01 to 12, `-`, then four ASCII digits; on failure the message is `invalid date format: <input>, expected format MM-YYYY` |
| Validation.UuidPatternMeaning | internal/ports/http/public/utils/validation.go:8 | the UUID regular expression, anchored at both ends, matches exactly the canonical lowercase 8-4-4-4-12 strings |
| Validation.DatePatternMeaning | internal/ports/http/public/utils/validation.go:18 | the date regular expression matches exactly the `MM-YYYY` strings with month 01 to 12 |
| Validation.UppercaseHexRejected | internal/ports/http/public/utils/validation.go:8 | any string containing an uppercase hex letter A to F fails the UUID check |
| Validation.BracedUuidRejected | internal/ports/http/public/utils/validation.go:8 | a string wrapped in braces fails the UUID check |
| Validation.TrailingNewlineRejected | internal/ports/http/public/utils/validation.go:8-18 | a trailing newline fails both checks, since `$` matches only at the end of the text |
| Validation.MonthZeroRejected | internal/ports/http/public/utils/validation.go:18 | month `00` fails the date check, whatever follows |
| Validation.MonthAboveTwelveRejected | internal/ports/http/public/utils/validation.go:18 | months 13 to 19 fail the date check, whatever follows |
| Validation.AnyFourDigitYearAccepted | internal/ports/http/public/utils/validation.go:18 | a valid month, a dash and any four ASCII digits pass the date check |
| Validation.YearZeroAccepted | internal/ports/http/public/utils/validation.go:18 | `01-0000` passes the date check |
| Validation.ErrorsMentionInput | internal/ports/http/public/utils/validation.go:10-22 | whenever either check fails, its message contains the offending input |
| StrConv.ParseInt | internal/ports/http/public/handlers.go:70 | yields a value iff the text is an optional sign followed by one or more ASCII digits and the number fits in int64; the value is that number |
| StrConv.ParseIntEdges | internal/ports/http/public/handlers.go:70 | `+007` parses to 7 and `-0` to 0; the empty string, a lone `-` and a leading space are rejected |
| StrConv.ParseFormatRoundTrip | internal/ports/http/public/handlers.go:54-70 | writing any int64 in decimal and parsing it back returns the same number |
| Sql.WhereTrueIffAll | internal/adaper/storage/postgres/postgres.go:123-149 | `1=1 AND c1 AND ... AND cn` is TRUE exactly when every condition is TRUE |
| Sql.NullNeverCompares | internal/adaper/storage/postgres/postgres.go:146 | a comparison with a NULL column is UNKNOWN, so it never selects the row |
| Sql.TextLeTotal | internal/adaper/storage/postgres/postgres.go:140-146 | any two dates compare one way or the other in the text order |
| Sql.TextLeTransitive | internal/adaper/storage/postgres/postgres.go:140-146 | the text order is transitive |
| Postgres.BuildListQuery | internal/adaper/storage/postgres/postgres.go:123-149 | the WHERE conditions and parameters built with the `paramIndex` counter are the listing query, one numbered term per supplied filter |
| Postgres.BuildCostQuery | internal/adaper/storage/postgres/postgres.go:179-201 | the cost query built from `paramIndex := 3` is the overlap test on `$1` and `$2` followed by the numbered optional filters |
| Postgres.ListQueryShape | internal/adaper/storage/postgres/postgres.go:123-150 | one bound parameter per supplied filter; placeholder `$k` is parameter k-1 and holds that filter's value; columns appear as user_id, service_name, start_date, end_date |
| Postgres.CostQueryShape | internal/adaper/storage/postgres/postgres.go:188-201 | `$1` is start_period and `$2` end_period; the base conditions are the overlap test on `$1` and `$2`; the conditions from `$3` on are equalities, only on user_id and service_name, in that order, each bound to its supplied filter's value |
| Postgres.ListQueryMeaning | internal/adaper/storage/postgres/postgres.go:127-149 | the listing query selects a row iff it has the given user_id and service_name, `start_date >= x` and `end_date <= y` for the filters supplied; absent filters do not constrain |
| Postgres.CostQueryMeaning | internal/adaper/storage/postgres/postgres.go:179-201 | the cost query selects a row iff `start_date <= end_period`, the end date is NULL or `>= start_period`, and the optional user and service equalities hold |
| Postgres.OpenEndedNeverListedUnderEndFilter | internal/adaper/storage/postgres/postgres.go:145-149 | with an end_date filter supplied, a row with a NULL end_date is never selected |
| Postgres.RowsBagSize | internal/adaper/storage/postgres/postgres.go:157-169 | the rows read for a set of ids number exactly as many as the ids |
| Postgres.Storage.CreateSubscription | internal/adaper/storage/postgres/postgres.go:68-77 | inserts the record under the sequence's next id, which no row had, and returns that id; on a database failure, or once the sequence passes int64's maximum, fails and leaves the table as it was |
| Postgres.Storage.GetSubscription | internal/adaper/storage/postgres/postgres.go:79-87 | returns the stored record unchanged; an id with no row gives NotFound and no record; a database failure gives DatabaseError |
| Postgres.Storage.UpdateSubscription | internal/adaper/storage/postgres/postgres.go:89-104 | replaces all five fields of that one row and no other; an absent id gives NotFound with the table unchanged |
| Postgres.Storage.DeleteSubscription | internal/adaper/storage/postgres/postgres.go:106-120 | removes exactly the row with that id; an absent id gives NotFound with the table unchanged |
| Postgres.Storage.ListSubscriptions | internal/adaper/storage/postgres/postgres.go:122-176 | returns, as a multiset, exactly the records of the rows that satisfy every supplied filter; a database failure gives DatabaseError |
| Postgres.Storage.CalculateTotalCost | internal/adaper/storage/postgres/postgres.go:178-211 | returns the sum of `price` over the rows that overlap the period and pass the filters; a sum outside int64 gives DatabaseError |
| Postgres.ListedExactly | internal/adaper/storage/postgres/postgres.go:122-176 | a record is listed iff some row stores it and it satisfies every supplied filter |
| Postgres.ListedSize | internal/adaper/storage/postgres/postgres.go:157-169 | the listing holds one entry per matching row |
| Postgres.RowsBagCount | internal/adaper/storage/postgres/postgres.go:157-169 | reading a set of rows yields each record once for every row that stores it |
| Postgres.ListedCount | internal/adaper/storage/postgres/postgres.go:122-176 | the listing holds each record as many times as there are matching rows storing it |
| Postgres.UnfilteredListsEverything | internal/adaper/storage/postgres/postgres.go:123-149 | without filters the listing is the whole table: each record once per row that stores it, `len(rows)` entries in all |
| Postgres.UserFilterListsOnlyThatUser | internal/adaper/storage/postgres/postgres.go:127-131 | a user_id filter lists only that user's records |
| Postgres.EndFilterListsNoOpenEnded | internal/adaper/storage/postgres/postgres.go:145-149 | an end_date filter never lists an open-ended subscription |
| Postgres.ListedAfterInsert | internal/adaper/storage/postgres/postgres.go:68-176 | a newly inserted row joins a listing exactly when it matches the filter |
| Postgres.TotalAfterInsert | internal/adaper/storage/postgres/postgres.go:68-211 | a newly inserted row adds its price to a total exactly when it overlaps the period and passes the filters |
| Postgres.NoMatchCostsZero | internal/adaper/storage/postgres/postgres.go:180 | `COALESCE(SUM(price), 0)` is 0 when no row qualifies |
| Postgres.EmptyTableCostsZero | internal/adaper/storage/postgres/postgres.go:180 | an empty table totals 0 for every filter |
| Postgres.OverlapExample | internal/adaper/storage/postgres/postgres.go:183-186 | a row from 01-2024 to 06-2024 priced 100 counts fully for 03-2024..03-2024 and not at all for 07-2024..12-2024 |
| Postgres.OpenEndedCounted | internal/adaper/storage/postgres/postgres.go:184 | an open-ended row from 01-2023 priced 50 counts in full for every period whose end_period is not before 01-2023, when no user or service filter is given |
| Postgres.WiderPeriodSelectsMore | internal/adaper/storage/postgres/postgres.go:183-186 | widening the period on either side never drops a row from the selection |
| Postgres.CreateThenGet | internal/adaper/storage/postgres/postgres.go:68-86 | after Create returns an id, Get of that id yields the inserted record unchanged |
| Postgres.UpdateThenGet | internal/adaper/storage/postgres/postgres.go:89-104 | a successful Update is what the next Get sees; a failed one is NotFound and leaves the table as it was |
| Postgres.DeleteTwice | internal/adaper/storage/postgres/postgres.go:106-120 | the first delete succeeds iff the row existed and removes only it; a second delete of the same id, and a Get of it, give NotFound |
| Periods.SameYearTextOrderIsMonthOrder | internal/adaper/storage/postgres/postgres.go:184-185 | for two valid dates of the same year, the text order the queries use is month order |
| Periods.TextOrderIsNotChronological | internal/adaper/storage/postgres/postgres.go:184-185 | across years it is not: `01-2024` sorts before `12-2023` |
| Periods.CrossYearOverlapNotCounted | internal/adaper/storage/postgres/postgres.go:183-186 | so a subscription from 11-2023 to 02-2024 adds nothing to the total for the period 01-2024..01-2024 |
| Handlers.QueryGet | internal/ports/http/public/handlers.go:211-212 | the first value given for a query key, or the empty string when there is none |
| Handlers.CheckSubscription | internal/ports/http/public/handlers.go:31-46 | passes iff the user id is a canonical UUID, the start date is `MM-YYYY` and the end date, when present, is too; the first failing check in that order gives the message |
| Handlers.ParseId | internal/ports/http/public/handlers.go:69-73 | calls the store iff the path id is a base-10 int64, with that number; otherwise 400 `invalid id` |
| Handlers.CreateDecide | internal/ports/http/public/handlers.go:24-46 | a body that does not decode gives 400 `invalid request body`; the store is called iff the body decodes and passes every field check; otherwise 400 with the first check's message |
| Handlers.CreateRespond | internal/ports/http/public/handlers.go:48-54 | a store error gives 500 `failed to create subscription`; success gives 201 with the id the store returned |
| Handlers.GetRespond | internal/ports/http/public/handlers.go:75-80 | any store error gives 404 `subscription not found`; success gives 200 with the record |
| Handlers.UpdateDecide | internal/ports/http/public/handlers.go:96-124 | the id is checked before the body, so a bad id gives 400 `invalid id` whatever the body; then it applies Create's checks, and the store is called iff both pass |
| Handlers.UpdateRespond | internal/ports/http/public/handlers.go:126-131 | any store error, a missing row included, gives 500; success gives 200 with status `updated` |
| Handlers.DeleteRespond | internal/ports/http/public/handlers.go:153-157 | any store error, a missing row included, gives 500; success gives 204 with status `deleted` |
| Handlers.Supplied | internal/ports/http/public/handlers.go:175-186 | a query value becomes a filter exactly when it is non-empty |
| Handlers.ListFilterFromQuery | internal/ports/http/public/handlers.go:174-186 | each listing filter field is set, unvalidated, exactly when its query value is non-empty |
| Handlers.ListRespond | internal/ports/http/public/handlers.go:188-193 | a store error gives 500 `failed to list subscriptions`; otherwise 200 with the records, `null` when there are none |
| Handlers.CostDecide | internal/ports/http/public/handlers.go:210-243 | missing period bounds give 400 before any format check; start_period is checked before end_period; user_id is checked only when non-empty; service_name is passed through; the store is called iff every check passes |
| Handlers.CostFilterFromQuery | internal/ports/http/public/handlers.go:211-243 | the early returns and field-by-field filter building reach exactly the decision described above |
| Handlers.CostRespond | internal/ports/http/public/handlers.go:245-256 | a store error gives 500 `failed to calculate total cost`; success gives 200 with `total_cost` equal to the store's result |
| Handlers.ServeCreate | internal/ports/http/public/handlers.go:24-55 | a rejected request returns its 400 and leaves the table alone; otherwise the record is stored under the new id and 201 carries that id, or 500 with the table unchanged |
| Handlers.ServeGet | internal/ports/http/public/handlers.go:68-81 | 200 with the stored record iff the id parses and a row has it and the database is up; 400 for a bad id; 404 otherwise |
| Handlers.ServeUpdate | internal/ports/http/public/handlers.go:96-132 | a rejected request leaves the table alone; an existing row gets the new fields with 200; a missing row or a database failure gives 500 with the table unchanged |
| Handlers.ServeDelete | internal/ports/http/public/handlers.go:146-158 | a bad id gives 400; an existing row is removed with 204; a missing row or a database failure gives 500 with the table unchanged |
| Handlers.ServeList | internal/ports/http/public/handlers.go:173-194 | 200 with exactly the matching records, or `null` when none match; 500 on a database failure |
| Handlers.ServeCost | internal/ports/http/public/handlers.go:210-257 | a rejected query returns its 400; otherwise 200 with the total over the qualifying rows, or 500 on a database failure or an int64 overflow |
| Handlers.RejectedBodyNeverStored | internal/ports/http/public/handlers.go:31-46 | a record that fails a field check is answered with 400 by both Create and Update, with no store call |
| Handlers.CreatedIdIsGettable | internal/ports/http/public/handlers.go:54-70 | the id Create returns, written in decimal as a path id, parses back to the same id |

The records themselves (internal/entities/subscriptions.go:3-29) are the datatypes of
`entities.dfy`.
- `Subscriptions` has exactly its five fields and no id, with an optional end date.
- `ListFilter` has four optional fields.
- `CostFilter` has a mandatory period and two optional filters.
- `TotalCostResponse` holds an `Int64`.
- Prices, totals and ids are the newtype `Int64`.

## Left out

- Process start-up, configuration, routing, middleware and logging: these are I/O and are not
  part of this model.
- The service layer is a pass-through to the store, so the handlers call the store directly.
- Connection pooling, contexts and concurrent requests: the model is sequential, one atomic
  statement per call.
- JSON encoding and decoding: a request body arrives as an already decoded record or as a
  decode failure, and a response carries a structured payload instead of bytes.
- The SQL text: queries are represented by their conditions and parameters, not by the string
  the source formats.
- The table schema is not known. Dates are taken to be stored as their `MM-YYYY` text, and ids
  to come from a sequence that starts at 1 and grows by one.
- `user_id` and `service_name` are taken to be text columns compared by plain string equality.
  A `uuid` column would behave differently for the unvalidated listing filter: a non-UUID
  `user_id` would fail as a database error, and uppercase forms would match.
- Sql.TextLe: text comparison is code-point order, as under the C collation. A linguistic
  collation can order unusual filter values differently; the listing passes its filters to the
  database unvalidated, so this matters there.
- Postgres.Storage.CreateSubscription: a failed insert does not advance the id sequence in the
  model. In Postgres a failed insert can consume a sequence value.
- Strings are sequences of Unicode characters, while Go strings are bytes. The validators accept
  only ASCII, and code-point order agrees with UTF-8 byte order, so nothing modelled depends on
  the difference. Values the database itself rejects (a NUL character, invalid UTF-8 in an
  unvalidated filter or field) fail in Postgres; the model leaves that failure to `dbError`.
- Database failures are one `dbError` flag per call. The model does not say which failure
  occurred or how far a listing got before it failed.
- Postgres.Storage.ListSubscriptions: states the result as a multiset, because the query has no
  `ORDER BY` and the row order is unspecified.
- Postgres.Storage.CalculateTotalCost: SUM's own overflow behaviour is modelled only as a total
  outside int64 turning into DatabaseError.
- StrConv.ParseInt: follows `strconv.ParseInt(s, 10, 64)` on its accepted language and value
  only. It does not model the error values, and does not model the underscore and base-prefix
  forms, which base 10 rejects anyway.
