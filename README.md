# tracing-bunyan-formatter, modelled in Dafny

This project models the two `tracing` layers of `tracing-bunyan-formatter`, and proves
what they promise.

- **`JsonStorageLayer`** (module `StorageLayer`, `storage_layer.dfy`) keeps a field map
  for every span.
  - A new span starts from a copy of its parent's map, and its creation fields are
    recorded over it.
  - Later `record` calls update the map in place.
  - The first enter stores a clock reading.
  - Closing a span writes `elapsed_milliseconds` into its map.
  - The visitor writes integers, booleans and strings as JSON.
  - Any other value is stored as its debug rendering, with two exceptions: names
    starting with `log.` are dropped, and the `r#` prefix of a raw identifier is
    stripped.
- **`BunyanFormattingLayer`** (module `FormattingLayer`, `formatting_layer.dfy`) turns a
  span that starts or ends, or an event, into one Bunyan record followed by a newline.
  - The record starts with the core fields `v`, `name`, `msg`, `level`, then
    `hostname` if configured, then `pid`, then `time` if formatting the time worked.
  - Next come the debugging aids `target`, `line` and `file`.
  - Then come the default fields, and then the span's or the event's own fields.
  - Skipped fields are left out at every stage, and required keys are left out of
    every group after the core fields.
  - Events also leave out `message`, and then add the current span's stored fields.
  - The configuration is a value: `new` and `with_default_fields` build it, and
    `with_hostname` and `skip_fields` take it by value and return it.
  - `skip_fields` fails on the first required key.
- **`JsonStorageFilter`** (module `StorageFilter`, `storage_filter.dfy`) is a span-name
  predicate and a field-name predicate. The crate root (`src/lib.rs:4-5`) does not
  declare this module, so the layers never consult it.
- **The end-to-end scenario** (module `EndToEnd`, `e2e.dfy`) plays the "shaving yaks"
  test through both layers, in the order the subscriber stack calls them. It uses the
  test's configuration. Every record the formatter writes is built from the maps the
  storage layer keeps for the spans. It proves what the tests check about these
  records:
  - every record has the seven required keys (`time` exactly when the time could
    be formatted) and the default field;
  - no record has `skipped`;
  - each record has exactly one `msg`, and it ends in `END]` exactly for the two
    records of spans closing; those two have `elapsed_milliseconds`.

  It also proves:
  - the parent's `a` reaches every record, which the test
    `parent_properties_are_propagated` checks for its own spans;
  - the inner event and the child's records carry `b`, and the outer event does not;
  - `skip_fields` fails with the exact error text when asked to skip `level`.

`wrappers.dfy` (Option/Result), `json.dfy` (JSON values, fixed-width integers, record
entries, and the layout predicates below) and `text.dfy` (prefix and suffix tests) are
shared support.

A record is a `Line`: the sequence of `(key, value)` entries its map serializer wrote,
in order, plus the terminator `"\n"`.

The map loops over `HashMap`s iterate in an unspecified order. They are modelled as
loops that pick any remaining key. Their result is specified by `Json.Listing`: every
non-excluded key exactly once, with its value, in some order. `IsSpanRecord` and
`IsEventRecord` say that a record is its head (core fields plus debugging aids),
followed by such listings of the default fields and the stored fields.

Inputs that come from the outside are parameters:
- the process id;
- the machine's host name;
- the formatted current time (`None` when formatting failed);
- clock readings, in nanoseconds;
- the span and event metadata;
- the debug rendering of a value.

Three behaviours of the code run against what a reader might expect, and the model
follows the code:
- One might expect a span or event field to replace a default field with the same
  key. Instead `serialize_span` and `on_event` write both entries, default value
  first (see `SpanRecordRepeatsSharedKey`). Which one a reader keeps depends on its
  JSON parser; `serde_json`, which the tests use to parse records, keeps the later one.
- One might expect `time` in every record, since it is a required key. It is omitted
  when formatting the time fails.
- One might expect the enter instant to be reset when a span is entered again after
  an exit. It is never reset, so `elapsed_milliseconds` counts from the first enter.

## Model

| member | source | states |
|---|---|---|
| StorageLayer.Visit | src/storage_layer.rs:50-88 | after one field is recorded, its key (`r#` stripped; nothing for a `log.` debug field) holds its JSON value; every other key keeps its value |
| StorageLayer.JsonStorage.Default | src/storage_layer.rs:40-47 | a new visitor starts with an empty map |
| StorageLayer.JsonStorage.Copy | src/storage_layer.rs:105-109 | the child's visitor starts with a copy of the parent's map (`to_owned`) |
| StorageLayer.JsonStorage.RecordI64 | src/storage_layer.rs:52-55 | the field's name now maps to the number, and nothing else changes |
| StorageLayer.JsonStorage.RecordU64 | src/storage_layer.rs:57-61 | the field's name now maps to the number, and nothing else changes |
| StorageLayer.JsonStorage.RecordBool | src/storage_layer.rs:63-67 | the field's name now maps to the boolean, and nothing else changes |
| StorageLayer.JsonStorage.RecordStr | src/storage_layer.rs:69-73 | the field's name now maps to the string, and nothing else changes |
| StorageLayer.JsonStorage.RecordDebug | src/storage_layer.rs:75-88 | a `log.` field leaves the map unchanged; an `r#name` field is stored under `name`; any other field under its own name, as its debug rendering |
| StorageLayer.JsonStorage.Record | src/storage_layer.rs:50-88 | recording one field changes the map exactly as `Visit` says |
| StorageLayer.JsonStorage.RecordAll | src/storage_layer.rs:116-118 | visiting the fields in order leaves the map `ApplyAll` describes |
| StorageLayer.LastWriteWins | src/storage_layer.rs:116-118 | after a sequence of fields, a key is present exactly when it was present before or some field wrote it; it holds the last value written, or its old value if no field wrote it |
| StorageLayer.ChildKeepsParentField | src/storage_layer.rs:100-118 | a field of the parent that no creation field of the child writes is in the child's map with the parent's value |
| StorageLayer.ElapsedMilliseconds | src/storage_layer.rs:153-166 | zero for a span never entered or a clock that went backwards; otherwise the whole milliseconds elapsed, equal to it modulo 2^64 (the `as u64` cast) |
| StorageLayer.JsonStorageLayer.NewSpan | src/storage_layer.rs:97-121 | the new span's map is its parent's map (or empty) with the creation fields recorded over it; no other span's map and no enter instant changes |
| StorageLayer.JsonStorageLayer.OnRecord | src/storage_layer.rs:123-135 | requires the span's map to exist; its fields are recorded over that map, and nothing else changes |
| StorageLayer.JsonStorageLayer.OnEnter | src/storage_layer.rs:137-145 | the clock reading is stored only on the first enter; a later enter changes nothing |
| StorageLayer.JsonStorageLayer.OnClose | src/storage_layer.rs:147-176 | requires the span's map to exist; `elapsed_milliseconds` is set or overwritten in it, measured from the first enter (zero if never entered) |
| FormattingLayer.ToBunyanLevel | src/formatting_layer.rs:31-40 | every level maps to one of the Bunyan codes 10, 20, 30, 40, 50 |
| FormattingLayer.BunyanLevelFollowsSeverity | src/formatting_layer.rs:31-40 | the mapping is injective and strictly monotone in severity, in both directions |
| FormattingLayer.WithDefaultFields | src/formatting_layer.rs:113-127 | the new layer keeps the name, the default fields, the process id and the machine host name; bunyan version 0, nothing skipped |
| FormattingLayer.New | src/formatting_layer.rs:94-96 | a layer that keeps the given name and process id, with the machine host name, no default fields and nothing skipped |
| FormattingLayer.WithHostname | src/formatting_layer.rs:129-132 | only the host name changes; validity is preserved |
| FormattingLayer.SkipFieldErrorMessage | src/formatting_layer.rs:60-68 | the text is the field's name followed by the fixed reason |
| FormattingLayer.SkipFields | src/formatting_layer.rs:147-161 | fails exactly when some field is a required key, naming the first such field; otherwise adds all the fields to the skip set, and a valid layer stays valid |
| FormattingLayer.TypeName | src/formatting_layer.rs:261-270 | the text is START exactly for a span that starts, END exactly for a span that ends, EVENT exactly for an event |
| FormattingLayer.ToUpper | src/formatting_layer.rs:279 | same length; each character is upper-cased; no lower-case ASCII letter remains |
| FormattingLayer.FormatSpanContext | src/formatting_layer.rs:272-280 | no contract of its own; `SpanContextRoundTrip` and `SpanContextEndsWithEnd` state what it promises |
| FormattingLayer.SpanContextRoundTrip | src/formatting_layer.rs:272-280 | the span context parses back to the upper-cased name and the record type |
| FormattingLayer.SpanContextEndsWithEnd | src/formatting_layer.rs:272-280 | a span context ends with `END]` exactly when the record is the span closing |
| FormattingLayer.EventText | src/formatting_layer.rs:292-301 | the event's `message` field when it is a JSON string, otherwise the target |
| FormattingLayer.FormatEventMessage | src/formatting_layer.rs:282-309 | without a current span, the event's text; with one, that span's EVENT context, a space, then the event's text |
| FormattingLayer.EventMessageNamesSpan | src/formatting_layer.rs:303-306 | the message of an event inside a span starts with a context that parses back to that span's name and EVENT |
| FormattingLayer.CoreEntriesOrder | src/formatting_layer.rs:163-181 | the core fields come in the order v, name, msg, level, [hostname], pid, [time]; all of them are required keys, and no key occurs twice |
| FormattingLayer.CoreEntries | src/formatting_layer.rs:163-181 | no contract of its own; `CoreEntriesOrder` and `CoreEntriesKeys` state its order and its keys |
| FormattingLayer.CoreEntriesKeys | src/formatting_layer.rs:163-181 | the core fields use exactly v, name, msg, level, pid, plus hostname when configured and time when formatted |
| FormattingLayer.CoreKeySetRequired | src/formatting_layer.rs:28-29 | with a host name, the core keys are all seven required keys, or all but `time` |
| FormattingLayer.CoreKeysDistinct | src/formatting_layer.rs:18-29 | the core keys are required keys and pairwise distinct |
| FormattingLayer.MapSerializer.SerializeEntry | src/formatting_layer.rs:169-178 | one `serialize_entry` call appends exactly its entry |
| FormattingLayer.SerializeBunyanCoreFields | src/formatting_layer.rs:163-181 | appends exactly the core entries, in order |
| FormattingLayer.SerializeField | src/formatting_layer.rs:183-197 | a skipped key writes nothing; any other key appends exactly its entry |
| FormattingLayer.DebugAidsKeys | src/formatting_layer.rs:210-215 | the debugging aids use exactly the keys `target`, `line`, `file` that are not skipped |
| FormattingLayer.SerializeDebugAids | src/formatting_layer.rs:210-215 | appends `target`, `line` and `file`, each unless skipped |
| FormattingLayer.SerializeHead | src/formatting_layer.rs:208-215 | a fresh serializer holds the core entries followed by the debugging aids |
| FormattingLayer.SerializeFields | src/formatting_layer.rs:217-235 | the loop over a map appends every entry whose key is neither reserved nor skipped, exactly once, with its value, and nothing else |
| FormattingLayer.SerializeSpan | src/formatting_layer.rs:199-240 | the record is the head, then the default fields, then the span's stored fields, with required and skipped keys left out; the terminator is a newline |
| FormattingLayer.OnNewSpan | src/formatting_layer.rs:386-391 | the START record of the span, as `SerializeSpan` lays it out |
| FormattingLayer.OnClose | src/formatting_layer.rs:393-398 | the END record of the span, as `SerializeSpan` lays it out |
| FormattingLayer.FormatEvent | src/formatting_layer.rs:324-378 | the record is the head with the event message, then the default fields and the event's fields (both without `message`), then the current span's stored fields; required and skipped keys are left out; the terminator is a newline |
| FormattingLayer.OnEvent | src/formatting_layer.rs:316-384 | the event's fields, recorded into an empty storage, are formatted by `FormatEvent` |
| FormattingLayer.SpanRecordBody | src/formatting_layer.rs:217-235 | after the head, a span record holds only default or stored fields, never a required or skipped key |
| FormattingLayer.HeadKeysNotSkipped | src/formatting_layer.rs:192-215 | with a valid configuration, no key of the head is skipped |
| FormattingLayer.SpanRecordOmitsSkipped | src/formatting_layer.rs:192-194 | a skipped field never appears in a span record |
| FormattingLayer.SpanRecordCarries | src/formatting_layer.rs:217-235 | every default field and every stored field that is neither required nor skipped appears with its value |
| FormattingLayer.SpanRecordRepeatsSharedKey | src/formatting_layer.rs:217-235 | a key that is both a default field and a stored field is written twice, the default value first |
| FormattingLayer.AidKeys | src/formatting_layer.rs:210-215 | the debugging aids use only `target`, `line`, `file`; none of them is skipped or required |
| FormattingLayer.SpanRecordKeys | src/formatting_layer.rs:199-240 | the key set of a span record is exactly the core keys, the unskipped aids, and the default and stored fields that are neither required nor skipped |
| FormattingLayer.SpanRecordRequiredOnce | src/formatting_layer.rs:219-233 | a required key occurs at most once in a span record |
| FormattingLayer.SpanRecordMessage | src/formatting_layer.rs:208-209 | a span record's `msg` is its third entry and its only one, holds the span context, and ends in `END]` exactly for the span closing |
| FormattingLayer.EventRecordRequiredOnce | src/formatting_layer.rs:331-371 | a required key occurs at most once in an event record |
| FormattingLayer.EventRecordMessage | src/formatting_layer.rs:331-336 | an event record's `msg` is its third entry and its only one, and holds `format_event_message` of the event |
| FormattingLayer.EventRecordBody | src/formatting_layer.rs:344-372 | after the head, an event record holds only default, event or span fields, never a required or skipped key; a `message` key there comes from the current span |
| FormattingLayer.EventRecordOmitsSkipped | src/formatting_layer.rs:340-372 | a skipped field never appears in an event record |
| FormattingLayer.EventRecordCarries | src/formatting_layer.rs:344-372 | every default or event field other than `message`, and every field of the current span, that is neither required nor skipped appears with its value |
| FormattingLayer.EventRecordKeys | src/formatting_layer.rs:324-378 | the key set of an event record is exactly the core keys, the unskipped aids, the default and event fields that are neither required, skipped nor `message`, and the current span's fields that are neither required nor skipped |
| StorageFilter.FilterSpan | src/storage_filter.rs:50-59 | no contract of its own; `New`, `ForSpan` and `SpanMatchIgnoresFields` state which spans it matches |
| StorageFilter.FilterField | src/storage_filter.rs:61-66 | no contract of its own; `FilterFieldByMode` and `ModesComplementary` state which fields it passes |
| StorageFilter.New | src/storage_filter.rs:28-34 | the filter keeps the fields and the mode, and applies to every span name |
| StorageFilter.ForSpan | src/storage_filter.rs:42-48 | the filter keeps the fields and the mode, and applies exactly to spans with the given name |
| StorageFilter.FilterFieldByMode | src/storage_filter.rs:61-66 | Include lets a field through exactly when it is listed; Exclude exactly when it is not |
| StorageFilter.ModesComplementary | src/storage_filter.rs:61-66 | for the same fields, the two modes disagree on every name |
| StorageFilter.SpanMatchIgnoresFields | src/storage_filter.rs:50-59 | whether a filter applies to a span depends only on its span name |
| EndToEnd.TestFormatter | tests/common/mod.rs:19-28 | the test configuration succeeds: name `test`, one default field `custom_field`, `skipped` skipped |
| EndToEnd.SkippingCoreFieldFails | tests/e2e.rs:144-160 | skipping `level` fails with the text "level is a core field in the bunyan log format, it can't be skipped" |
| EndToEnd.SpanLine | tests/e2e.rs:46-60 | a span record in the test configuration whose span holds `a = 2` has all required keys (`time` exactly when formatted), carries `custom_field` and `a`, and not `skipped`; its one `msg` ends in `END]` exactly when the span closes |
| EndToEnd.EventLine | tests/e2e.rs:46-60 | an event record inside a span holding `a = 2` has all required keys (`time` exactly when formatted), carries `custom_field` and `a`, and not `skipped` |
| EndToEnd.EventLineLacks | tests/e2e.rs:21-34 | a key that is neither required, a debugging aid, a default field, an event field nor a field of the current span is not in the event record |
| EndToEnd.EventCloses | tests/e2e.rs:120-133 | an event's one `msg` is its span's EVENT context, a space and its text, and does not end in `END]` when the text is non-empty and does not end in `]` |
| EndToEnd.OneRun | tests/e2e.rs:120-133 | a record with the shared facts, whose `msg` ends in `END]` exactly when its position is one of the last two, is a run at that position |
| EndToEnd.SixRuns | tests/e2e.rs:22-34 | six records, each a run at its own position, form the scenario's run |
| EndToEnd.CreateParent | tests/e2e.rs:23-24 | the parent's map, built by the storage layer, is `{a: 2}` and feeds its START record, which shares the scenario's facts and does not end in `END]` |
| EndToEnd.ParentEvent | tests/e2e.rs:25-27 | entering stores the parent's instant; the first event's record, built from the parent's stored map, shares the facts, has no `b`, and does not end in `END]` |
| EndToEnd.CreateChild | tests/e2e.rs:28-30 | the child inherits `a` and adds `b` and `skipped`; the parent's map is unchanged; the child's START record shares the scenario's facts and carries `b = 3` |
| EndToEnd.ChildEvent | tests/e2e.rs:31-33 | entering the child stores its enter instant next to the parent's; the inner event's record, built from the child's stored map, shares the scenario's facts, carries `b = 3`, and does not end in `END]` |
| EndToEnd.CloseChild | tests/e2e.rs:120-133 | the child's END record is built from the map the storage layer's close left; its `msg` ends in `END]`, and it carries `b = 3` and `elapsed_milliseconds` measured from the child's enter; the parent's map is unchanged |
| EndToEnd.ChildEndLine | tests/e2e.rs:120-133 | an END record of the child's stored map plus an elapsed value shares the facts, ends in `END]`, and carries `b = 3` and that value |
| EndToEnd.CloseParent | tests/e2e.rs:120-133 | the parent's END record is built from the map the storage layer's close left; its `msg` ends in `END]` and it carries `elapsed_milliseconds` measured from the parent's enter; the parent's map gains only that key and ends as `{a, elapsed_milliseconds}` |
| EndToEnd.ShavingYaks | tests/e2e.rs:22-34 | six records, each with all required keys, `custom_field` and `a` and never `skipped`, and each with one `msg`; that `msg` ends in `END]` exactly for the last two records (two span starts and two events, then two span ends), and those two carry the elapsed time; both child records and the inner event carry `b = 3`, the outer event has no `b`; the parent's map ends as `{a, elapsed_milliseconds}` |

## Left out

- The registry, `Context` and `SpanRef`. A span is named by its id, and its parent and stored map are arguments. The "this is a bug" panics of `on_record` and `on_close` (a span without storage) are preconditions.
- The writer factory, `emit` and the single `write_all` of a record. A record ends with its entry list and its terminator.
- The byte encoding of JSON and string escaping by `serde_json`. Serialization errors and the error paths of `?` are left out too: the in-memory map serializer never fails.
- `format!("{:?}")` for arbitrary values: a debug-rendered value carries its rendered text.
- Floating-point values: the storage layer defines no `record_f64`, so tracing routes them through `record_debug`, which the `DebugValue` case covers.
- The `valuable` feature and the `arbitrary_precision` feature, which keeps elapsed milliseconds as `u128`.
- `std::process::id`, `gethostname`, `OffsetDateTime::now_utc` with RFC 3339 formatting, and `Instant::now`. They are parameters; an `Instant` is a nanosecond count.
- Concurrency and the locking of span extensions.
- The test `infinite_loop` (tests/infinite_loop.rs). It expects six lines, each record preceded by a `tracing::debug!` diagnostic about the reserved field `name`. The formatter modelled here writes no such diagnostic: it drops reserved keys silently. The test also exercises re-entrancy through the global subscriber, which is not modelled.
- The mock writers of tests/mock_writer.rs. They are a writer double, not a test, and the writer is not modelled.
- `each_line_is_valid_json` and `time_is_formatted_according_to_rfc_3339`: byte output and time formatting are not modelled.
- EndToEnd.Shared: states that the required keys are present, not that their values are non-empty, because the values come from parameters (name, host name, time).
- Span-id reuse and the registry's removal of extensions when a span closes.
- FormattingLayer.ToUpper: upper-cases ASCII letters only, because Unicode case mapping (where a character can become several) is not modelled.
- StorageFilter: nothing consults the filter, because the crate does not compile the module. Only `new`, `for_span`, `filter_span` and `filter_field` are modelled.
