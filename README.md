# Last five card clicks per user — a verified model

This project models the core of a small streaming feature job (`run_testing.py`). Raw interaction events come in, each carrying a user id, a server timestamp in milliseconds and a JSON content payload. The job does four things:

1. It parses each payload into at most two strings, `item_id` and `tag`. The parser (`parse_content`) catches decode errors and shape errors and returns the empty map for them, and for a payload that is not a string.
2. It keeps only events that have an item id and whose tag is the card-click label `点击帖子卡片`.
3. It keeps, per user, the five qualifying events with the largest timestamps (`ROW_NUMBER() OVER (PARTITION BY user_id ORDER BY server_ts DESC) <= 5`).
4. For each user it publishes a record to an upsert sink keyed by user id. The record holds `MAX(server_ts / 1000)` and the feature string `last_5_clicks=` followed by the retained item ids joined together.

The model has six modules:

- `Wrappers` holds `Option`.
- `Json` holds the decoded payload value. It also holds `JsonRuntime`, a pair of functions that stand for the two library services the parser calls: `decode` (`json.loads`, giving `None` when it raises a `ValueError`) and `render` (Python's `str()` on a value that is not a string).
- `ContentParser` holds the parser twice. `ParseContentStepwise` is the step-by-step method that mirrors the source. `ParseContent` is the declarative specification it is proved equal to.
- `TopN` holds the ranking. `Insert` is a stable ranked insertion, `SortDesc` is a stable sort by timestamp descending, and `Retained` is the reference definition of each user's top five. `Step` and `Replay` are the incremental per-user state, proved equal to `Retained` for every user.
- `Aggregation` holds the seconds value with truncating integer division, the feature string with an explicit separator, and the published `FeatureRecord`.
- `Pipeline` holds the filter, the published record stream and the sink's latest-record-per-user view. It also holds the class `FeatureJob`, whose `Ingest` inserts, re-ranks, truncates to five and publishes a record when the user's retained events change. Finally `RunFromEmpty` replays a finite stream through a fresh job.

Two points where the code behaves differently from what a reader might expect:

- The filter tests only `item_id IS NOT NULL`, which after string coercion means "the key is present". An empty item id therefore qualifies; the code never asks for a non-empty one.
- `datetime` is computed from `MAX(server_ts / 1000)`. That is a value in seconds, obtained by integer division that rounds toward zero (the engine's BIGINT division). It is not a millisecond value.

## Model

| member | source | states |
|---|---|---|
| `Json.ToStr` | run_testing.py:40 | `str(v)`: a JSON string is kept as it is; any other value goes to the runtime's rendering |
| `ContentParser.Validated` | run_testing.py:19-32 | yields the top-level object exactly when the content is a string, decodes, is an object, and any `param` member is an object; yields None on each of the four error exits |
| `ContentParser.ParseContent` | run_testing.py:18-43 | keys are a subset of {`item_id`, `tag`}; the empty map for non-string input, decode failure, a non-object value and a non-object `param`; `item_id` is present iff `lid` or `postId` is, and equals `str(lid)` when `lid` is present, else `str(postId)`; `tag` is present iff `param` holds `tag`, and equals `str(param.tag)` |
| `ContentParser.ItemSource` | run_testing.py:33-36 | the item id comes from `lid` when present, otherwise from `postId`, and exists iff one of them is present |
| `ContentParser.TagSource` | run_testing.py:37-38 | the tag exists iff `param` is an object holding `tag`, and is that member |
| `ContentParser.ParseContentStepwise` | run_testing.py:18-43 | the source's step-by-step construction (empty `res`, store `postId`, overwrite with `lid`, add `param.tag`, coerce every value with `str`, each caught error returns the empty map) yields exactly `ParseContent` |
| `ContentParser.NullLidStillYieldsItemId` | run_testing.py:35-40 | a JSON-null `lid` still produces an `item_id` (the rendering of null) |
| `TopN.Insert` | run_testing.py:93 | ranked insertion adds exactly one event (its placement is stated by `InsertPermutes` and `InsertSorted`) |
| `TopN.InsertPermutes` | run_testing.py:93 | ranked insertion adds exactly the new event: result multiset = old multiset plus the event |
| `TopN.InsertAtMost` | run_testing.py:93 | ranked insertion keeps any upper bound on timestamps that the new event also respects |
| `TopN.ConsSorted` | run_testing.py:93 | an event that dominates a ranked sequence can be put in front and the result stays ranked |
| `TopN.InsertSorted` | run_testing.py:93 | ranked insertion keeps a sequence sorted by `server_ts` descending |
| `TopN.SortDesc` | run_testing.py:93 | the ranking has as many events as the partition (its order and contents are stated by the next two rows) |
| `TopN.SortDescPermutes` | run_testing.py:93 | the ranking is a permutation of its input |
| `TopN.SortDescSorted` | run_testing.py:93 | the ranking is sorted by `server_ts` descending |
| `TopN.Take` | run_testing.py:95 | the first `k` entries, or all of them when there are fewer; the result is a prefix |
| `TopN.UserEvents` | run_testing.py:93 | a user's partition is never longer than the history |
| `TopN.UserEventsMembers` | run_testing.py:93 | an event is in user `u`'s partition iff it is in the history and belongs to `u` |
| `TopN.Retained` | run_testing.py:89-96 | a user's retained events number at most five, and exactly min(5, number of the user's qualifying events) |
| `TopN.RetainedShape` | run_testing.py:89-96 | the retained events are sorted by `server_ts` descending and are events of the history for that user |
| `TopN.RankedPrefixIsTop` | run_testing.py:93-95 | in a ranked sequence nothing outside the first `k` is more recent than anything inside them |
| `TopN.RetainedIsTopK` | run_testing.py:89-96 | the retained events are a sub-multiset of the user's history, and every event left out has a timestamp no larger than every event kept |
| `TopN.ShortHistoryKeptWhole` | run_testing.py:89-96 | with at most five qualifying events the user keeps the whole history, sorted, as a permutation of it |
| `TopN.OtherUsersUnaffected` | run_testing.py:93 | an event for one user leaves every other user's partition and retained events unchanged |
| `TopN.OwnHistoryExtended` | run_testing.py:93 | an event for user `u` extends `u`'s partition by itself and the ranking of it by one insertion |
| `TopN.TakeInsert` | run_testing.py:93-95 | truncating to `k` before a ranked insertion then truncating again equals inserting into the whole and truncating, so a bounded per-user buffer loses nothing |
| `TopN.Step` | run_testing.py:89-96 | one incremental update touches only the event's user, whose buffer holds at most five events |
| `TopN.Replay` | run_testing.py:89-96 | after a non-empty history the last event's user holds between one and five retained events; the empty history gives the empty state |
| `TopN.ReplayAgrees` | run_testing.py:89-96 | the incremental per-user state after any history equals the reference top five for every user |
| `TopN.ReplayStep` | run_testing.py:89-96 | one more event viewed both ways: the state update and the reference definition for its user coincide |
| `Aggregation.SecondsOf` | run_testing.py:99 | `ms / 1000` rounds toward zero: `1000*r <= ms < 1000*r + 1000` for non-negative `ms`, mirrored for negative |
| `Aggregation.SecondsOfMonotone` | run_testing.py:99 | the division never reverses the order of two timestamps |
| `Aggregation.MaxTs` | run_testing.py:99 | `MAX(server_ts)` is at least the first and the last timestamp |
| `Aggregation.MaxTsIsMaximum` | run_testing.py:99 | `MaxTs` bounds every timestamp and is attained |
| `Aggregation.MaxSeconds` | run_testing.py:99 | `MAX(server_ts / 1000)` is at least the seconds of the first and the last event |
| `Aggregation.MaxCommutesWithSeconds` | run_testing.py:99 | `MAX(server_ts / 1000)` equals `MAX(server_ts) / 1000` for timestamps of any sign |
| `Aggregation.RankedMaxIsFirst` | run_testing.py:99 | on a ranked sequence the maximum timestamp, and so the emitted seconds, come from its first event |
| `Aggregation.ItemIds` | run_testing.py:100 | the item ids in ranked order, one per retained event |
| `Aggregation.Join` | run_testing.py:100 | `LISTAGG`: no ids give the empty string; otherwise the text starts with the first id, followed by the separator when there is a second |
| `Aggregation.Split` | run_testing.py:100 | splitting a feature's id list always yields at least one part |
| `Aggregation.SplitNoSeparator` | run_testing.py:100 | a string without the separator splits into itself |
| `Aggregation.SplitAtFirst` | run_testing.py:100 | splitting cuts at the first separator |
| `Aggregation.SplitJoin` | run_testing.py:100 | joining with a separator absent from every id and splitting gives back the ids |
| `Aggregation.Feature` | run_testing.py:100 | every feature string begins with the literal `last_5_clicks=` |
| `Aggregation.FeatureRoundTrip` | run_testing.py:100 | when no item id contains the separator, the feature string determines the retained item ids in ranked order |
| `Aggregation.Aggregate` | run_testing.py:97-102 | the record is keyed by the user; its seconds value is `MaxTs / 1000`; its feature is the prefix followed by the joined item ids |
| `Aggregation.RankedHeadIsMax` | run_testing.py:93-99 | the head of a ranked permutation carries the largest timestamp of the original |
| `Aggregation.SecondsFromWholeHistory` | run_testing.py:89-102 | a user's record carries the largest timestamp of the user's whole qualifying history, divided, because truncation never drops the most recent event |
| `Pipeline.Qualify` | run_testing.py:84-87 | an event qualifies iff its payload is well formed, names an item through `lid` or `postId`, and `str(param.tag)` equals the card-click label; the qualifying event carries the user, the parsed item id and the timestamp |
| `Pipeline.Qualifying` | run_testing.py:83-88 | the filtered stream is never longer than the raw stream (what each event adds is stated by `QualifiedAppends` and `DroppedEventChangesNothing`) |
| `Pipeline.DroppedEventChangesNothing` | run_testing.py:84-87 | a dropped event leaves the qualifying history and every user's retained events unchanged |
| `Pipeline.QualifiedAppends` | run_testing.py:84-88 | a qualifying raw event extends the filtered history by exactly the event it becomes |
| `Pipeline.Emitted` | run_testing.py:97-102 | at most one published record per qualifying event |
| `Pipeline.Output` | run_testing.py:74-103 | the whole transformation publishes at most one record per raw event |
| `Pipeline.SinkView` | run_testing.py:58-63 | the upsert sink's view of a record stream: empty for no records, and the last record is its user's entry |
| `Pipeline.SinkViewAppend` | run_testing.py:58-63 | a new record replaces the sink's entry for its user |
| `Pipeline.EmittedStep` | run_testing.py:89-102 | one qualifying event publishes a record iff its user's retained events change, and the record aggregates the new retained events |
| `Pipeline.SinkStep` | run_testing.py:58-63 | after one more qualifying event, only that user's sink entry can change |
| `Pipeline.SinkHoldsCurrentFeature` | run_testing.py:74-103 | the sink holds a record for exactly the users with a qualifying event, each the aggregate of the user's current top five |
| `Pipeline.Upsert` | run_testing.py:58-63 | a published record replaces its user's entry and leaves every other entry alone; no record leaves the sink unchanged |
| `Pipeline.SinkOwnUser` | run_testing.py:58-63 | after an ingest the event's user has an up-to-date sink entry |
| `Pipeline.SinkOtherUser` | run_testing.py:58-63 | after an ingest every other user's sink entry is unchanged and still up to date |
| `Pipeline.SinkAfterIngest` | run_testing.py:58-103 | upserting what an ingest publishes keeps the sink in agreement with the retained state |
| `Pipeline.OutputSinkAgrees` | run_testing.py:58-103 | the latest-record view of the pure published stream agrees with the retained state |
| `Pipeline.SinkAgreesUnique` | run_testing.py:58-63 | agreement with the retained state determines the sink completely |
| `Pipeline.ReplayOutcome` | run_testing.py:74-103 | when the state is the replay of the filtered stream and the sink is the view of its output, every user's buffer is the reference top five, and the sink holds exactly the users with a qualifying event, each with the aggregate of their top five |
| `Pipeline.FeatureJob.constructor` | run_testing.py:89-96 | a fresh job has no retained events and an empty history |
| `Pipeline.FeatureJob.Ingest` | run_testing.py:89-102 | inserts the event, re-ranks and truncates to five for its user only; publishes the user's aggregate exactly when the retained events change |
| `Pipeline.FeatureJob.Process` | run_testing.py:79-102 | parses and filters a raw event; a dropped event changes nothing and publishes nothing; a qualifying one is ingested |
| `Pipeline.IngestKeepsSink` | run_testing.py:58-102 | upserting what an ingest publishes keeps the sink equal to the latest-record view of the published stream |
| `Pipeline.ProcessKeepsSink` | run_testing.py:79-103 | after one more raw event, the history is the filtered longer stream and the upserted sink is the latest-record view of its output |
| `Pipeline.Feed` | run_testing.py:79-103 | processing one raw event and upserting its record keeps the job valid, its history equal to the filtered prefix and the sink equal to the view of the prefix's output |
| `Pipeline.FeedAll` | run_testing.py:74-103 | feeding a fresh job the whole stream leaves its history equal to the filtered stream and the sink equal to the latest-record view of the output |
| `Pipeline.RunFromEmpty` | run_testing.py:74-103 | replay from empty state depends on the stream alone: each user's buffer is the reference top five, the sink holds exactly the users with a qualifying event, each entry is that user's aggregate, and the sink equals the latest-record view of the pure published stream |
| `Pipeline.TwoClicksRetained` | run_testing.py:89-96 | two clicks for user 42 at 100 ms and 200 ms are retained most recent first |
| `Pipeline.TwoClicksRecord` | run_testing.py:97-100 | their record has seconds value 0 and feature `last_5_clicks=b,a` with a comma separator |
| `Pipeline.ClickPayloadQualifies` | run_testing.py:84-87 | an event whose payload names an item through `lid` qualifies iff its tag is the card-click label, and then carries that item |
| `Pipeline.KeepKeepDrop` | run_testing.py:83-88 | of three raw events, two qualifying and one dropped, the filtered history is the two in arrival order |
| `Pipeline.TwoClicksSink` | run_testing.py:58-102 | after the two clicks the sink holds user 42's record with seconds 0 and feature `last_5_clicks=b,a` |
| `Pipeline.ThreeRawEvents` | run_testing.py:74-103 | from three raw events (clicks on a and b, then an event on c with another tag) the filtered history is the two clicks and the sink's entry for user 42 is `last_5_clicks=b,a` with seconds 0 |

## Left out

- Engine setup, the connector jar and UDF registration (run_testing.py:105-120) are runtime plumbing and are not modelled.
- The Kafka source and sink definitions (run_testing.py:46-72) are not modelled beyond two points. The source is a sequence of `RawEvent` values. The sink keeps the latest record per `user_id` (`Upsert`, `SinkView`).
- `json.loads` is the `decode` component of `JsonRuntime`; its parsing of text is not modelled. It returns `None` exactly when `json.loads` raises a `ValueError` (`json.JSONDecodeError` among them), which the handler at run_testing.py:41 catches. Other exceptions it can raise, such as a recursion error on deeply nested input, are not modelled.
- Python's `str()` text for non-string values is the `render` component of `JsonRuntime`. The exact text for numbers, booleans, null, lists and dicts is not modelled.
- Logging on the error paths (run_testing.py:20, 42) is output only and is left out.
- `TO_TIMESTAMP(FROM_UNIXTIME(...))` is timezone-dependent rendering; the model stops at the integer seconds value.
- Ties: `ROW_NUMBER` gives no order among equal `server_ts`. `Insert` ranks earlier arrivals first. This is a modelling choice, not a guarantee of the source.
- `LISTAGG`: the code states neither a separator nor an order. The separator is the explicit parameter `sep`; the engine's default is a comma. The order is the ranked order, most recent first, which is a modelling choice.
- Retraction and update messages: the engine may publish intermediate records while a ranking changes. The model publishes one record per change of a user's retained events; the sink's final view is the same.
- NULL `uid` or `serverts` are not modelled: `RawEvent` carries integers. A NULL `contentstr` is modelled as `None`.
- BIGINT width is not modelled. Integers are unbounded, and dividing by 1000 cannot overflow.
- Parallel workers, checkpointing, state TTL and restarts are runtime concerns and are not modelled.
- Pipeline.Qualifying: its own contract only bounds the length; `QualifiedAppends` and `DroppedEventChangesNothing` state what each raw event contributes.
- Pipeline.Emitted: its own contract only bounds the length; `EmittedStep` and `SinkHoldsCurrentFeature` state what it publishes.
- Pipeline.Output: its own contract only bounds the length; `RunFromEmpty`, `ProcessKeepsSink` and `ThreeRawEvents` state what the sink ends up holding.
- TopN.UserEvents: its own contract only bounds the length; `UserEventsMembers` states membership.
- TopN.Insert: its own contract states the length; `InsertPermutes` and `InsertSorted` state the rest.
- TopN.SortDesc: its own contract states the length; `SortDescPermutes` and `SortDescSorted` state the rest.
- TopN.Replay: its own contract speaks only of the last event's user; `ReplayAgrees` states the whole state.
- Aggregation.MaxTs: its own contract bounds only the first and last timestamps; `MaxTsIsMaximum` states that it is the maximum.
- Aggregation.MaxSeconds: its own contract bounds only the first and last events; `MaxCommutesWithSeconds` states its value.
- Aggregation.Join: its own contract states only the empty case, the first id and the first separator; `SplitJoin` and `FeatureRoundTrip` state that the ids can be recovered.
