# device-monitor: the telemetry pipeline and session lifecycle in Dafny

device-monitor records the on/off sessions of a monitored device, driven by a
smart plug's webhooks. For each session it pulls telemetry for seven fixed data
points from an IoT cloud platform, normalises the platform's mixed encodings,
and builds a per-point report. This project models the decision logic and data
transformations of that service and proves properties about them.

The modules follow the Go packages:

- `Values`: Go's `interface{}` values, `m[k]` lookup, `strconv.ParseInt`/`Atoi`,
  and the int64 truncations the code relies on.
- `Registry`: the data-point registry `GetIotDataPoints` (`models/iot.go`).
- `IotData`: the three telemetry-persistence stubs (`models/iot_data.go`).
- `Normalize` and `Extraction`: `processDataPoints` and the response scan of
  `QueryDeviceData` (`services/iot_service.go`).
- `IotService`: the platform client. It is a class whose fields are the access
  token cache. A pure step function for each operation specifies its methods:
  `getAccessToken`, `QueryDeviceData` with its 401 invalidation,
  `SyncSessionData` and `TestConnection`.
- `Sessions`: the session model (`models/session.go`).
  - `DeviceSession` is a class with its `BeforeSave` and `AfterFind` hooks.
  - `SessionStore` is a class over the rows of `device_sessions`.
  - The SQL text and arguments that `GetSessions` and `GetStatistics` build are
    modelled by concatenation, as the code builds them.
- `Webhook`: the four webhook handlers (`api/handlers/webhook.go`). They are
  methods on the store, and each is specified by a pure outcome function.
- `SessionHandlers`: pagination defaults, `calculateSummary`, the series
  conversion, `getMapKeys` and `GetSessionReport` (`api/handlers/session.go`).
- `IotHandlers`: the sync flattening, the connection test and the device-point
  list (`api/handlers/iot.go`).
- `StaticFiles`: the `NoRoute` fallback of `main.go`.

Modelling choices:

- Instants are `int` milliseconds since the Unix epoch. Go's zero `time.Time` is
  -62135596800000.
- `time.Now()`, the new session's UUID, the configured device code, the
  platform's replies, `time.Parse(time.RFC3339, …)` and `strconv.ParseFloat` are
  parameters.
- float64 is `real`.
- `timestamp.Format(time.RFC3339)` is the value `TimeText(s)`, for whole seconds
  `s`. Its characters are not modelled.
- The seven goroutines of `SyncSessionData` are sequentialised, in registry
  order.
- Go's unspecified map iteration order is a ghost enumeration. Counts are proved
  not to depend on it.

Behaviour of the code as written that a reader might not expect, and that the
model keeps:

- `GetSessionReport` means to "Convert data array to timeSeries format"
  (`api/handlers/session.go:138`). As written, it only converts a `data` field
  of type `[]interface{}` (`api/handlers/session.go:140`). The sync always
  stores `[]map[string]interface{}` (`services/iot_service.go:293,336`). So
  every synced point's `timeSeries` is empty.
  `SessionHandlers.SyncedEntrySeriesEmpty` and
  `SessionHandlers.ReportPerRegistryPoint` prove this.
- The report's `raw` samples and `points` are always empty, because the
  persistence stubs of `models/iot_data.go` return nothing.
- As written, the response scan of `QueryDeviceData` keeps the items of every
  entry whose identifier matches, not only the first one.
- The device-point list of `api/handlers/iot.go:96-104` shows the Hilbert
  envelope under the display name "希尔伯特值". The registry of
  `models/iot.go` calls it "希尔伯特包络". The list also puts the envelope
  last.

## Model

| member | source | states |
|---|---|---|
| Values.Lookup | services/iot_service.go:231-232 | reading a missing key of a `map[string]interface{}` yields nil, a present key its value |
| Values.ParseInt | services/iot_service.go:345 | an accepted text is non-empty, starts with a sign or digit, and denotes an int64 |
| Values.ParseIntRoundTrip | services/iot_service.go:345 | every int64 written in decimal is parsed back to itself |
| Values.TruncateReal | services/iot_service.go:343 | `int64(t)` truncates toward zero: within one below a non-negative float, within one above a negative one |
| Values.WholeSeconds | models/session.go:119 | whole seconds of a duration, truncated toward zero: the remainder is less than a second and has the duration's sign |
| Registry.GetIotDataPoints | models/iot.go:43-88 | seven entries; pairwise distinct names; every kind is number, array or boolean; the Hilbert envelope is exactly the array kind; non-numeric entries have no unit |
| Registry.RegistryKindCounts | models/iot.go:49-85 | four number, one array and two boolean entries |
| IotData.GetIotDataPointNames | models/iot_data.go:24-27 | no stored summaries and no error, whatever the session |
| IotData.GetAggregatedIotData | models/iot_data.go:31-34 | no stored buckets and no error, whatever the arguments |
| IotData.GetIotDataBySessionId | models/iot_data.go:38-41 | no stored samples and no error |
| Normalize.RenderTime | services/iot_service.go:382 | the rendered time is the whole second containing the instant |
| Normalize.NormalizeTime | services/iot_service.go:340-352 | defines the instant of a sample: a float is milliseconds truncated to int64, an integer string of 13 characters is milliseconds and of any other length seconds, anything else the zero time (its properties are the `Normalize` lemmas below) |
| Normalize.NormalizeValue | services/iot_service.go:355-378 | defines the value of a sample: the Hilbert array passes through, a string on a number-kind point becomes its parsed float or 0.0, anything else is kept |
| Normalize.ProcessedRows | services/iot_service.go:335-388 | one normalised row per item, in the items' order |
| Normalize.ProcessDataPoints | services/iot_service.go:335-388 | the loop yields exactly one row per item, in order, each the normalised time and value of that item |
| Normalize.MillisecondStringMatchesFloat | services/iot_service.go:341-347 | a 13-character integer string is milliseconds, the same instant as that number sent as a float |
| Normalize.OtherLengthStringIsSeconds | services/iot_service.go:345-350 | an integer string of any other length is seconds |
| Normalize.UnreadableTimeIsZero | services/iot_service.go:340-352 | a time that is neither a float nor an integer string leaves the zero instant |
| Normalize.TimestampExamples | services/iot_service.go:341-350 | "1700000000000", 1700000000000.0 and "1700000000" denote the same instant |
| Normalize.ValueChangesOnlyNumericStrings | services/iot_service.go:355-378 | a value is changed only for a number-kind point, and only when it is a string |
| Normalize.NumericStringCoerced | services/iot_service.go:363-368 | on a number-kind point a string becomes its parsed float, or 0.0 when it does not parse |
| Normalize.PassThroughIsArrayKind | services/iot_service.go:356-358 | for registry points the Hilbert test is the array-kind test, and array-kind values pass through unchanged |
| Extraction.ExtractDataList | services/iot_service.go:203-247 | the nested loops yield the items of the matching entries' data lists; a missing or non-array `data` yields none |
| Extraction.Extracted | services/iot_service.go:215-244 | defines the response scan: the items of the matching entries when `data` is an array, none otherwise (membership and order are the lemmas below) |
| Extraction.ObjectItemsAppend | services/iot_service.go:227-236 | the item scan distributes over concatenation of data lists |
| Extraction.EntriesItemsAppend | services/iot_service.go:217-242 | the entry scan distributes over concatenation of entries, so order is kept |
| Extraction.ObjectItemsMembership | services/iot_service.go:227-236 | an item is kept exactly when it comes from a map-shaped element of the data list |
| Extraction.EntriesItemsMembership | services/iot_service.go:217-242 | an item is kept exactly when some entry contributes it |
| Extraction.ExtractedMembership | services/iot_service.go:217-242 | an item is kept exactly when it is a map-shaped element of the `dataList` array of an entry whose `point.identifier` is the requested point |
| Extraction.SingleMatchingEntry | services/iot_service.go:217-242 | with one matching entry the result is that entry's items |
| Extraction.NoMatchNoItems | services/iot_service.go:217-242 | with no matching entry the result is empty |
| IotService.Refresh | services/iot_service.go:97-126 | a refresh succeeds exactly on a 200 reply whose body parses with success and code 200; success stores the token with a 24-hour expiry; failure keeps the cache |
| IotService.TokenStep | services/iot_service.go:58-127 | a returned token is the cached one; a failure leaves the cache unchanged |
| IotService.QueryStep | services/iot_service.go:130-247 | a query succeeds exactly when a token is obtained and the reply is a 200 with a decodable body, and then returns the items extracted for the point; only a 401 changes the cache the token step left, clearing its token, and it is an error |
| IotService.DeviceCodeFor | services/iot_service.go:252-255 | defines the queried device: the session's, or the configured code when it is empty |
| IotService.WindowEnd | services/iot_service.go:257-261 | defines the window end: the end time of a completed session that has one, otherwise now |
| IotService.SyncOver | services/iot_service.go:263-332 | defines the sync: the registry points queried in order, each with the cache the previous queries left, each entry stored under the point's name (`SyncKeys`, `SyncSize`, `SyncCoversRegistry`) |
| IotService.IotService.constructor | services/iot_service.go:47-52 | a new client has no token and the zero expiry |
| IotService.IotService.GetAccessToken | services/iot_service.go:58-127 | the new cache and the result are the token step from the old cache |
| IotService.IotService.QueryDeviceData | services/iot_service.go:130-248 | the new cache and the result are the query step for the request built from the arguments |
| IotService.IotService.SyncSessionData | services/iot_service.go:251-332 | the loop over the registry yields the sequential sync, with the device-code fallback and the window end |
| IotService.IotService.TestConnection | services/iot_service.go:391-394 | the error is absent exactly when a token is obtained, and is the token step's error otherwise |
| IotService.UsableTokenReturned | services/iot_service.go:59-74 | a set, unexpired token is returned with no refresh |
| IotService.TokenReusedUntilExpiry | services/iot_service.go:59-126 | a token obtained at `now` is returned unchanged at any later instant before its expiry, whatever the reply |
| IotService.RefreshStoresToken | services/iot_service.go:121-126 | a successful refresh stores the reply's token with expiry now + 24h and returns it |
| IotService.RefreshFailureKeepsCache | services/iot_service.go:97-119 | a refresh fails exactly on no reply, a non-200 status, an unparsable body, or a body without success or code 200; failure keeps the cache |
| IotService.ErrorMessageOf | services/iot_service.go:181-183 | the `message` decoded from a 401 body: "" for an undecodable body or when no key matching `message` case-insensitively carries a string, and that string when exactly one such string is present |
| IotService.UnauthorizedForcesRefresh | services/iot_service.go:175-184 | a 401 reply returns the message decoded from its body as the error and clears the token, so the next token request refreshes |
| IotService.UnauthorizedMessageAnyCase | services/iot_service.go:181-183 | a 401 body whose key is `Message` yields its text, as Go's case-insensitive struct decoding does |
| IotService.NoTokenNoQuery | services/iot_service.go:131-134 | without a token no query is made and the token error is wrapped |
| IotService.NonArrayDataIsEmpty | services/iot_service.go:215-245 | a 200 reply whose `data` is not an array gives an empty list and no error |
| IotService.WindowEndCases | services/iot_service.go:257-261 | the window ends at the end time only for a completed session that has one, otherwise now |
| IotService.DeviceCodeFallback | services/iot_service.go:252-255 | an empty device ID falls back to the configured device code |
| IotService.PointDataCases | services/iot_service.go:282-310 | a failed point gets empty data; a queried one gets one processed row per item |
| IotService.SyncKeys | services/iot_service.go:276-313 | the result has exactly one key per queried point name |
| IotService.SyncSize | services/iot_service.go:276-313 | with distinct names there are as many entries as points |
| IotService.SyncEntryShapes | services/iot_service.go:283-310 | every point's entry carries its display name, unit, type and a list of rows |
| IotService.SyncCoversRegistry | services/iot_service.go:268-331 | a sync has seven entries, one per registry point, each of that point's shape |
| IotHandlers.PointRows | api/handlers/iot.go:45-56 | a point contributes one row per element of its row-shaped data, in order, copying the name, value, time and unit; any other point contributes none |
| IotHandlers.FlattenSyncData | api/handlers/iot.go:41-58 | the rows are the flattening of the entries in the enumeration order, and `dataCount` is their number |
| IotHandlers.AppendPointRows | api/handlers/iot.go:47-55 | the inner loop appends exactly the point's rows and keeps the count equal to the length |
| IotHandlers.FlattenedMembership | api/handlers/iot.go:44-58 | a row is produced exactly when some enumerated point contributes it |
| IotHandlers.FlattenedLength | api/handlers/iot.go:41-58 | the number of rows is the sum of the points' contributions |
| IotHandlers.RowCountOrderFree | api/handlers/iot.go:44-58 | that sum is the same for any two enumerations of the same keys |
| IotHandlers.CountOrderFree | api/handlers/iot.go:41-63 | `dataCount` does not depend on the map's iteration order |
| IotHandlers.SyncedPointRows | api/handlers/iot.go:45-53 | a synced registry point contributes one row per processed sample, each with the point's name and unit |
| IotHandlers.SyncLookupFailure | api/handlers/iot.go:17-28 | the no-rows error gives 404; any other lookup error gives 500 with its text |
| IotHandlers.SyncIotData | api/handlers/iot.go:12-65 | an unknown session means 404 and no platform call; otherwise the response is the sync's flattening with its count |
| IotHandlers.ConnectionReplyOf | api/handlers/iot.go:79-90 | success and 200 exactly without an error, 500 with the error otherwise |
| IotHandlers.TestIotConnection | api/handlers/iot.go:76-91 | the reply reports success exactly when a token was obtained, and updates the cache as the token step does |
| IotHandlers.DataPointsReply | api/handlers/iot.go:68-73 | the reply lists the seven registry points in order |
| IotHandlers.DevicePointsMatchRegistry | api/handlers/iot.go:96-104 | the device points are the registry's points with the envelope moved last, same names and units, and display names except the envelope's |
| IotHandlers.GetDevicePoints | api/handlers/iot.go:94-110 | defines the fixed list of seven device points the handler returns, whatever the device |
| IotHandlers.DevicePointsIgnoreDevice | api/handlers/iot.go:94-110 | the list is the same for every device |
| SessionHandlers.LimitCases | api/handlers/session.go:24-30 | an absent limit is 50, an unparsable one 0, a decimal integer its value |
| SessionHandlers.LimitOf | api/handlers/session.go:24-30 | defines the limit: 50 when absent or empty, the integer `Atoi` reads, 0 when it fails |
| SessionHandlers.OffsetOf | api/handlers/session.go:32-36 | defines the offset: the integer `Atoi` reads, 0 when absent, empty or unreadable |
| SessionHandlers.OffsetCases | api/handlers/session.go:32-36 | an absent or unparsable offset is 0, a decimal integer its value |
| SessionHandlers.DefaultPage | api/handlers/session.go:24-30 | without a limit parameter the query binds LIMIT 50 |
| SessionHandlers.NonPositiveLimitUnpaged | models/session.go:225-235 | a limit and offset that are not positive bind no paging arguments |
| SessionHandlers.DataArray | api/handlers/session.go:226-236 | a `[]map` is viewed element by element as objects; anything but the two slice types is empty |
| SessionHandlers.RowsAsObjects | api/handlers/session.go:230-235 | the conversion loop yields the same view |
| SessionHandlers.SampleStatistics | api/handlers/session.go:238-285 | the loop's count, sum, min and max are those of the handled values |
| SessionHandlers.RunningStep | api/handlers/session.go:269-282 | one handled value extends the running statistics to the longer sequence, the first value setting min and max |
| SessionHandlers.SampleValue | api/handlers/session.go:244-266 | an item is handled exactly when it is a map whose value is a float, an int or a string that parses, and then its number is that value |
| SessionHandlers.CalculateSummary | api/handlers/session.go:201-296 | the summary built is the summary of the point's data |
| SessionHandlers.SummaryOf | api/handlers/session.go:201-296 | defines the summary: labels from the entry, and count, min, max and mean of the handled values, zeros when there are none (`SummaryCount`, `SummaryStatistics`, `SummaryMean`) |
| SessionHandlers.MinMaxBounds | api/handlers/session.go:269-280 | min and max are counted values, and every counted value lies between them |
| SessionHandlers.HandledAppend | api/handlers/session.go:254-266 | one more item adds its number exactly when it is handled |
| SessionHandlers.MinMaxAppend | api/handlers/session.go:273-279 | the running min and max updates compute the min and max of the longer sequence |
| SessionHandlers.CountedStatistics | api/handlers/session.go:287-292 | the average times the count is the sum, and it lies between min and max |
| SessionHandlers.SummaryOfCounted | api/handlers/session.go:287-292 | a counted summary's min and max are counted values bounding all, and its average lies between them |
| SessionHandlers.SummaryCount | api/handlers/session.go:287-292 | count is the number of handled values; without any, min, max and average stay 0 |
| SessionHandlers.SummaryStatistics | api/handlers/session.go:269-290 | with handled values, min and max are among them and bound them all |
| SessionHandlers.SummaryMean | api/handlers/session.go:287-291 | with handled values, the average lies between min and max |
| SessionHandlers.SummaryLabels | api/handlers/session.go:212-217 | the name is the display name and the unit the unit when they are strings, empty otherwise |
| SessionHandlers.HandledMembership | api/handlers/session.go:243-283 | a number is counted exactly when some map item's value yields it |
| SessionHandlers.SkippedSample | api/handlers/session.go:254-269 | a bool, nil, unparsable or non-map item leaves the counted values unchanged |
| SessionHandlers.RowsAndListAgree | api/handlers/session.go:226-236 | `[]map[string]interface{}` data and the same maps as `[]interface{}` give the same summary |
| SessionHandlers.ConvertSeries | api/handlers/session.go:139-163 | the loop yields the series of the point's data |
| SessionHandlers.SeriesOf | api/handlers/session.go:139-163 | defines the series: one entry per map item of a `[]interface{}` data field, none for any other type |
| SessionHandlers.SeriesLength | api/handlers/session.go:140-162 | the series has at most one entry per item, exactly one when every item is a map |
| SessionHandlers.SyncedEntrySeriesEmpty | api/handlers/session.go:133-168 | a synced entry's series is empty as written, and its summary carries the point's display name and unit and counts its handled samples |
| SessionHandlers.GetMapKeys | api/handlers/session.go:192-198 | the keys are listed once each, exactly the map's keys |
| SessionHandlers.CollectStoredReports | api/handlers/session.go:106-120 | the loop stores each stored summary with its minute buckets under its name |
| SessionHandlers.CollectSyncedReports | api/handlers/session.go:131-170 | the loop stores a summary and series under every object-shaped entry's name |
| SessionHandlers.LookupFailure | api/handlers/session.go:84-96 | the no-rows error gives 404; any other gives 500 with its text |
| SessionHandlers.GetSessionReport | api/handlers/session.go:81-189 | an unknown session means 404 and no platform call; otherwise a 200 report of the session with the synced reports and empty stored lists |
| SessionHandlers.ReportPerRegistryPoint | api/handlers/session.go:124-170 | a report has seven entries, one per registry point, with its display name, unit and an empty series |
| SessionHandlers.ReportsOfEntries | api/handlers/session.go:131-170 | the report has the sync's keys, each entry a synced summary of that point |
| SessionHandlers.ReportKeys | api/handlers/session.go:131-169 | when every entry is an object each gets a report, and no other key does |
| SessionHandlers.ReportOfEntry | api/handlers/session.go:133-168 | a point's synced entry becomes a summary with its display name and unit and an empty series |
| Sessions.FindSession | models/session.go:151-158 | a found index holds the session ID; none found means no row does |
| Sessions.Merged | models/session.go:121-129 | incoming keys overwrite, other existing keys are kept, nil incoming metadata changes nothing |
| Sessions.EndedRow | models/session.go:119-134 | an ended row is completed at the end time with merged metadata, its identity and start unchanged; its duration is the span's whole seconds toward zero within the ±(2^63−1) ns range of `time.Time.Sub`, and ±9223372036 s beyond it |
| Values.SpanSeconds | models/session.go:119 | `int64(end.Sub(start).Seconds())`: the whole seconds of the span within Sub's range, ±9223372036 beyond it, never outside those bounds |
| Sessions.EndedFromZeroTimeSaturates | models/session.go:119 | a session started at the zero time and ended at 1700000000000 ms lasts 9223372036 s, although the span is 63835596800 s |
| Sessions.EndRefusal | models/session.go:108-117 | ending is refused only with no-rows or not-running |
| Sessions.EndAcceptsOnlyRunning | models/session.go:110-117 | ending is allowed exactly for a running session; no-rows exactly when no row has the ID |
| Sessions.DeviceSession.FromRow | models/session.go:152-155 | a loaded record holds the row's columns and no decoded fields yet |
| Sessions.DeviceSession.Draft | models/session.go:72-78 | a new session is running, with no end time, and the given device, ID, start and metadata |
| Sessions.DeviceSession.BeforeSave | models/session.go:39-48 | the metadata column is the object when one is set and unchanged otherwise |
| Sessions.DeviceSession.AfterFind | models/session.go:51-68 | the duration pointer is nil exactly when the column is NULL, else its value; a set metadata column is decoded |
| Sessions.MergeMetadata | models/session.go:122-129 | the copy loop computes the merge |
| Sessions.RunningOf | models/session.go:170 | the selection is exactly the device's running rows |
| Sessions.InsertByStart | models/session.go:170 | insertion keeps the descending start order and adds the row to the multiset |
| Sessions.SortByStartDesc | models/session.go:170 | the result is sorted by start descending and a permutation of the input |
| Sessions.RunningSessionsSelection | models/session.go:168-184 | the running sessions are the device's running rows, latest start first; none exactly when the device has no running row |
| Sessions.RunningSessions | models/session.go:168-184 | defines the running sessions of a device: its running rows sorted by start, latest first |
| Sessions.SessionStore.CreateSession | models/session.go:71-105 | a new ID appends a running row with the next id; an existing ID fails and changes nothing |
| Sessions.SessionStore.GetSessionByID | models/session.go:151-165 | an unknown ID is the no-rows error; a known one loads its row |
| Sessions.SessionStore.GetRunningSessions | models/session.go:168-184 | one loaded record per running session, in that order |
| Sessions.SessionStore.EndSession | models/session.go:108-148 | the error is the refusal; on success only that row is replaced by its ended form |
| Sessions.ConditionPlaceholders | models/session.go:193-235 | each condition and paging fragment binds exactly one placeholder |
| Sessions.WithClause | models/session.go:193-215 | a present field appends its clause after the earlier ones, an empty one appends none |
| Sessions.FilterClauses | models/session.go:193-215 | one clause per non-empty field, device first and end date last |
| Sessions.ClausesArgs | models/session.go:193-215 | one argument per clause, in order |
| Sessions.ClausesPlaceholders | models/session.go:193-215 | the appended conditions hold as many placeholders as clauses |
| Sessions.FramedPlaceholders | models/session.go:189-215 | a placeholder-free head with the conditions holds one placeholder per clause, plus the tail's |
| Sessions.PagedPlaceholders | models/session.go:225-235 | ordering and paging add as many placeholders as arguments |
| Sessions.SessionsQueryPlaceholders | models/session.go:187-235 | both statements hold exactly as many placeholders as the arguments bound to them |
| Sessions.SessionsQueryOf | models/session.go:187-235 | defines the two statements and argument lists of `GetSessions` from the filter |
| Sessions.SessionsHeadsHaveNoPlaceholder | models/session.go:189-190 | the two statement heads hold no placeholder |
| Sessions.SessionsQueryArgs | models/session.go:191-235 | one argument per non-empty field; the listing adds the limit and offset only when positive, after the filter arguments, and the count gets neither |
| Sessions.PagedArgsShape | models/session.go:227-235 | paging keeps the filter arguments and appends LIMIT before OFFSET, each only when positive |
| Sessions.AddCondition | models/session.go:270-283 | one `if field != ""` step appends the clause and its argument when present |
| Sessions.AddConditionToBoth | models/session.go:193-215 | one step appends the same clause to both statements and binds its argument once |
| Sessions.AddFilterConditions | models/session.go:189-215 | the four steps build both statements from the filter's clauses and bind their arguments |
| Sessions.AddPaging | models/session.go:225-235 | ordering and paging are appended as the paging function states |
| Sessions.BuildSessionsQuery | models/session.go:187-235 | the statements and arguments built are those of the filter |
| Sessions.ReplaceAfter | models/session.go:311 | `strings.Replace(…, 1)` with a pattern that cannot start in the prefix replaces in the rest |
| Sessions.ReplaceCount | models/session.go:311 | replacing `COUNT(*)` once swaps the aggregate of the counting head and keeps the conditions |
| Sessions.StatisticsFilter | models/session.go:270-283 | statistics filter by device and dates only, without status or paging |
| Sessions.DailySelectHasNoPlaceholder | models/session.go:362-366 | the daily head holds no placeholder |
| Sessions.AggregateHasNoPlaceholder | models/session.go:311-350 | swapping in a placeholder-free aggregate keeps the head placeholder-free |
| Sessions.StatisticsTextsHaveNoPlaceholder | models/session.go:293-376 | none of the fixed texts of the statistics statements holds a placeholder |
| Sessions.StatisticsPlaceholders | models/session.go:267-378 | all eight statistics statements hold exactly as many placeholders as the shared arguments |
| Sessions.StatisticsQueriesOf | models/session.go:267-378 | defines the eight statements and the shared arguments of `GetStatistics` |
| Sessions.StatisticsCountsLikeSessions | models/session.go:267-283 | the statistics count statement and arguments are those of the sessions count for the same device and dates |
| Sessions.BuildStatisticsQueries | models/session.go:267-376 | the eight statements and arguments built are those of the inputs |
| Sessions.AddDateConditions | models/session.go:367-375 | the conditions appended to a head are those of the statistics filter |
| Sessions.CollectStatistics | models/session.go:285-406 | every NULL aggregate becomes 0, any other is reported as answered; one daily entry per row, in order |
| Webhook.ResolveDeviceId | api/handlers/webhook.go:40-46 | the `deviceName` query parameter, else the body's device ID, else the configured code |
| Webhook.ResolveTime | api/handlers/webhook.go:49-59 | a non-empty parseable timestamp is used, otherwise now |
| Webhook.CreateAndReply | api/handlers/webhook.go:62-75 | the store and reply are the create outcome; the id counter moves only on success |
| Webhook.EndAndReply | api/handlers/webhook.go:144-157 | the store and reply are the end outcome |
| Webhook.FindEndTarget | api/handlers/webhook.go:119-141 | an explicit session ID is the target; otherwise the latest running session of the device, if any |
| Webhook.EndTarget | api/handlers/webhook.go:119-141 | defines the session a stop ends: the explicit ID, or the first of the device's running sessions, or none |
| Webhook.DeviceStart | api/handlers/webhook.go:22-76 | the store and reply are the start outcome |
| Webhook.DeviceEnd | api/handlers/webhook.go:79-158 | the store and reply are the stop outcome |
| Webhook.TestWebhookStart | api/handlers/webhook.go:161-183 | the store and reply are the test-start outcome |
| Webhook.TestWebhookEnd | api/handlers/webhook.go:186-232 | the store and reply are the test-stop outcome |
| Webhook.StartOutcome | api/handlers/webhook.go:22-76 | defines the start handler's reply and rows: 400 for an unbindable body or power other than "on", otherwise the session created for the resolved device and time (`StartBadRequest`, `StartAddsRunningSession`) |
| Webhook.StopOutcome | api/handlers/webhook.go:79-158 | defines the stop handler's reply and rows: 400 for an unbindable body or power other than "off", 404 with no target, otherwise the target ended (`StopBadRequest`, `StopEndsLatestRunning`) |
| Webhook.TestStartOutcome | api/handlers/webhook.go:161-183 | defines the test start: a session for the query's or configured device, started now, with `{test: true}` |
| Webhook.TestStopOutcome | api/handlers/webhook.go:186-232 | defines the test stop: 400 without either parameter, 404 with no target, otherwise the target ended now with `{test: true}` merged |
| Webhook.StartBadRequest | api/handlers/webhook.go:24-37 | 400 exactly for a malformed body or a power other than "on" |
| Webhook.StartAddsRunningSession | api/handlers/webhook.go:39-75 | a refused start changes nothing; an accepted one appends a running session for the resolved device and time, now the device's running session |
| Webhook.StopBadRequest | api/handlers/webhook.go:81-94 | 400 exactly for a malformed body or a power other than "off" |
| Webhook.StopEndsLatestRunning | api/handlers/webhook.go:118-157 | without a session ID: 404 exactly when the device has no running session, otherwise the latest running one is ended |
| Webhook.LatestRunningTarget | api/handlers/webhook.go:123-140 | the chosen target exists, is running, belongs to the device and started latest; none exactly when the device has no running session |
| Webhook.StopByIdIgnoresDevice | api/handlers/webhook.go:119-121 | an explicit session ID is ended without lookup, succeeding exactly when it is running, and failing with 500 and no change otherwise |
| Webhook.TestStopNeedsTarget | api/handlers/webhook.go:190-195 | 400 exactly when neither session ID nor device ID is given |
| Webhook.TestStartMarksSession | api/handlers/webhook.go:161-170 | a test start appends a session started now with metadata `{test: true}` for the query's or the configured device |
| Webhook.TestStopMarksSession | api/handlers/webhook.go:197-220 | a test stop completes the session at now with `test: true` in its metadata |
| StaticFiles.StaticPath | main.go:102-110 | one leading slash is removed and the empty path becomes index.html |
| StaticFiles.ContentTypeOf | main.go:142-158 | defines the content type by the first matching suffix of the switch, `application/octet-stream` otherwise |
| StaticFiles.ProdNoRoute | main.go:93-161 | defines the production fallback: JSON 404 under "/api", the embedded file, or index.html, with their 500s |
| StaticFiles.DevNoRoute | main.go:164-175 | defines the development fallback: JSON 404 for paths longer than "/api" under it, otherwise proxied |
| StaticFiles.ProdApiNotFound | main.go:96-100 | in production the JSON 404 is given exactly to paths starting with "/api" |
| StaticFiles.ExistingFileServed | main.go:112-160 | a readable file is served with its content and the type of its suffix |
| StaticFiles.UnknownPathServesIndex | main.go:113-130 | a file that does not open is answered with index.html as HTML, or 500 when that cannot be served |
| StaticFiles.RootIsIndex | main.go:103-110 | "/" and "" both serve index.html as HTML |
| StaticFiles.OneSlashStripped | main.go:103-105 | only one leading slash is removed |
| StaticFiles.TextSuffixes | main.go:142-153 | .html, .js, .css and .json get their text types |
| StaticFiles.ImageSuffixes | main.go:150-155 | .svg and .png get their image types |
| StaticFiles.JpegSuffixes | main.go:156-157 | both .jpg and .jpeg are image/jpeg |
| StaticFiles.JpegIsNoEarlierType | main.go:143-157 | a JPEG name does not match any case tested before it |
| StaticFiles.UnknownSuffixIsBinary | main.go:142-158 | a name with no known suffix is application/octet-stream |
| StaticFiles.DevAndProdApiTests | main.go:166-169 | the development test implies the production one, and they differ exactly on "/api", which development proxies |

## Left out

- HTTP transport, TLS and proxy setup, request building and gin context plumbing: the platform's replies are parameters (status, decoded body) and handlers take their decoded inputs.
- JSON encoding and decoding: a request body that does not bind is `None`; the metadata column is modelled by the object its text encodes, so `BeforeSave` cannot fail to marshal.
- Concurrency: the goroutines and mutexes of `SyncSessionData` and the token cache's read/write locks; the fan-out is a loop in registry order and the cache is single-threaded.
- IotService.SyncOver: one authentication reply `auth` answers every token refresh within one sync, so a sync in which one refresh fails and a later one succeeds is not expressed.
- Values.TruncateReal: `int64(t)` of a float outside the int64 range (services/iot_service.go:343) is implementation-defined in Go; the model truncates toward zero without bound.
- IotService.QueryStep: a 200 reply whose body is the JSON literal `null` is the empty map `Some(map[])`, which yields an empty list, as Go's nil map does; the decoding itself is not modelled.
- IotService.ErrorMessageOf: when several keys that match `message` case-insensitively carry different strings, Go keeps the last one in the body's text; the decoded map does not record that order, so the model takes the exact key `message` if it holds a string, and "" otherwise.
- The `created_at` and `updated_at` columns of `device_sessions` (models/session.go:25-26, 101-102, 142): they are set from the clock and only reported, and no decision depends on them.
- IotService.IotService.SyncSessionData: the error channel and its log are not modelled, since the function always returns a nil error.
- Floating point: float64 is `real`; `strconv.ParseFloat` and RFC 3339 parsing are abstract parameters, so rounding is not modelled.
- The characters of formatted times (`time.RFC3339`, `2006-01-02 15:04:05`): `TimeText` stands for the RFC 3339 text of a whole second.
- Logging, `log.Printf` everywhere.
- The database: SQL execution is abstracted into `SessionStore`; execution failures other than a duplicate session ID are not modelled; the placeholder count and argument lists of the SQL text are.
- Sessions.SessionStore.GetRunningSessions: the tie order between sessions with equal start times is stable insertion order, which SQLite does not promise.
- `DeleteSession`, the `GetSessions`/`GetSessionByID`/`GetStatistics`/`GetDeviceStatistics` response wrapping and the health route: they only pass results through to JSON.
- `GetIotService`'s singleton and `config/config.go`: the configured device code is a parameter.
- The development reverse proxy: its answer is `Proxied`.
- `database/db.go` and the front-end sources are not part of this model.
