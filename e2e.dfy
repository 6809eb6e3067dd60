/**
 * The "shaving yaks" scenario of the crate's end-to-end tests, played through the
 * model: a formatter with one default field and one skipped field, a parent span
 * with field `a = 2`, an event in it, a child span with `b = 3` and
 * `skipped = false`, an event in the child, then both spans closing. The storage
 * layer handles every callback before the formatter, as it sits below it in the
 * subscriber stack.
 */
module EndToEnd {
  import opened Wrappers
  import opened Json
  import opened Text
  import opened StorageLayer
  import opened FormattingLayer

  const CustomField: string := "custom_field"
  const CustomValue: Json := String("custom_value")
  const SkippedField: string := "skipped"

  /** The scenario's formatter: name `test`, one default field, `skipped` skipped. */
  method TestFormatter(pid: U32, machineHostname: string) returns (layer: BunyanFormattingLayer)
    ensures Configured(layer)
    ensures layer == WithDefaultFields("test", map[CustomField := CustomValue], pid, machineHostname)
                       .(skipFields := {SkippedField})
  {
    var r := SkipFields(WithDefaultFields("test", map[CustomField := CustomValue], pid, machineHostname),
                        [SkippedField]);
    assert SkippedField !in BunyanRequiredFields;
    assert (set f | f in [SkippedField]) == {SkippedField};
    layer := r.value;
  }

  /** `skip_fields(["level"])` fails, and the error names `level` and the reason. */
  method SkippingCoreFieldFails(pid: U32, machineHostname: string) returns (text: string)
    ensures text == "level" + " is a core field in the bunyan log format, it can't be skipped"
  {
    var r := SkipFields(New("test", pid, machineHostname), [LevelKey]);
    assert [LevelKey][0] in BunyanRequiredFields;
    var i :| 0 <= i < 1 && [LevelKey][i] == r.error.field;
    text := SkipFieldErrorMessage(r.error);
  }

  /**
   * What the scenario's records share: every required key (`time` exactly when
   * the current time could be formatted), the default field, no skipped field,
   * and the parent's `a`.
   */
  predicate Shared(line: Line, time: Option<string>)
  {
    && line.terminator == "\n"
    && BunyanRequiredFields - {TimeKey} <= KeySet(line.record)
    && (TimeKey in KeySet(line.record) <==> time.Some?)
    && (CustomField, CustomValue) in line.record
    && SkippedField !in KeySet(line.record)
    && ("a", Number(2)) in line.record
  }

  /**
   * A record's `msg` is its third entry and no other entry is one; it is a
   * string, and it ends in "END]" exactly when `closing`. The crate's test
   * `elapsed_milliseconds_are_present_on_exit_span` picks the records of spans
   * closing by that suffix.
   */
  predicate Closes(line: Line, closing: bool)
  {
    && |line.record| > 2 && line.record[2].0 == MessageKey && line.record[2].1.String?
    && (forall i :: 0 <= i < |line.record| && line.record[i].0 == MessageKey ==> i == 2)
    && (EndsWith(line.record[2].1.s, "END]") <==> closing)
  }

  /**
   * `lines` are the scenario's records from position `at` on: each shares what
   * `Shared` says, and each closes a span exactly when it is one of the last
   * two of the six.
   */
  predicate Run(lines: seq<Line>, time: Option<string>, at: nat)
  {
    && at + |lines| <= 6
    && forall i :: 0 <= i < |lines| ==> Shared(lines[i], time) && Closes(lines[i], at + i >= 4)
  }

  /** One record at position `at` that shares the facts and closes as that position says is a run. */
  lemma OneRun(line: Line, time: Option<string>, at: nat)
    requires at < 6 && Shared(line, time) && Closes(line, at >= 4)
    ensures Run([line], time, at)
  {
  }

  /** An event message whose text does not end in `]` does not end in "END]". */
  lemma EventTextNotClosing(context: string, text: string)
    requires |text| >= 1 && text[|text| - 1] != ']'
    ensures !EndsWith(context + " " + text, "END]")
  {
    var s := context + " " + text;
    assert s[|s| - 1] == text[|text| - 1];
    EndsWithAt(s, "END]", 1);
    assert "END]"[3] == ']';
  }

  /** The scenario's six records, each a run at its position, make one run. */
  lemma SixRuns(a: Line, b: Line, c: Line, d: Line, e: Line, f: Line,
                time: Option<string>)
    requires Run([a], time, 0) && Run([b], time, 1) && Run([c], time, 2)
    requires Run([d], time, 3) && Run([e], time, 4) && Run([f], time, 5)
    ensures Run([a, b, c, d, e, f], time, 0)
  {
    assert [a][0] == a && [b][0] == b && [c][0] == c;
    assert [d][0] == d && [e][0] == e && [f][0] == f;
  }

  /** The scenario's configuration, as the record lemmas need it. */
  predicate Configured(layer: BunyanFormattingLayer)
  {
    && layer.Valid() && layer.hostname.Some?
    && layer.skipFields == {SkippedField} && layer.defaultFields == map[CustomField := CustomValue]
  }

  /** The field names of the scenario are neither required, skipped, debugging aids nor the event text. */
  lemma ScenarioKeys()
    ensures forall k :: k in {CustomField, "a", "b", ElapsedKey} ==>
      k !in BunyanRequiredFields && k != SkippedField && k != EventMessageField && k !in DebugAidKeys
    ensures TimeKey !in DebugAidKeys && TimeKey != SkippedField
  {
  }

  /** The shared facts of a span record whose span carries `a = 2`. */
  lemma SpanLine(layer: BunyanFormattingLayer, span: Metadata, fields: Values, ty: RecordType,
                 time: Option<string>, line: Line)
    requires Configured(layer) && line.terminator == "\n"
    requires IsSpanRecord(layer, span, fields, ty, time, line.record)
    requires "a" in fields && fields["a"] == Number(2)
    ensures Shared(line, time)
    ensures Closes(line, ty == ExitSpan)
  {
    SpanRecordMessage(layer, span, fields, ty, time, line.record);
    ScenarioKeys();
    SpanRecordKeys(layer, span, fields, ty, time, line.record);
    CoreKeySetRequired();
    SpanRecordCarries(layer, span, fields, ty, time, line.record, CustomField);
    SpanRecordCarries(layer, span, fields, ty, time, line.record, "a");
    SpanRecordOmitsSkipped(layer, span, fields, ty, time, line.record, SkippedField);
  }

  /** The shared facts of an event record whose current span carries `a = 2`. */
  lemma EventLine(layer: BunyanFormattingLayer, event: Metadata, values: Values,
                  current: Option<CurrentSpan>, time: Option<string>, line: Line)
    requires Configured(layer) && line.terminator == "\n"
    requires IsEventRecord(layer, event, values, current, time, line.record)
    requires "a" in CurrentFields(current) && CurrentFields(current)["a"] == Number(2)
    ensures Shared(line, time)
  {
    ScenarioKeys();
    EventRecordKeys(layer, event, values, current, time, line.record);
    CoreKeySetRequired();
    EventRecordCarries(layer, event, values, current, time, line.record, CustomField);
    EventRecordCarries(layer, event, values, current, time, line.record, "a");
    EventRecordOmitsSkipped(layer, event, values, current, time, line.record, SkippedField);
  }

  /** A field that comes from none of an event record's sources is not in it. */
  lemma EventLineLacks(layer: BunyanFormattingLayer, event: Metadata, values: Values,
                       current: Option<CurrentSpan>, time: Option<string>, line: Line, key: string)
    requires IsEventRecord(layer, event, values, current, time, line.record)
    requires key !in BunyanRequiredFields && key !in DebugAidKeys
    requires key !in layer.defaultFields && key !in values && key !in CurrentFields(current)
    ensures key !in KeySet(line.record)
  {
    var reserved := BunyanRequiredFields + {EventMessageField} + layer.skipFields;
    var sources := CoreKeySet(layer.hostname.Some?, time.Some?) + (DebugAidKeys - layer.skipFields)
                   + (layer.defaultFields.Keys - reserved) + (values.Keys - reserved)
                   + (CurrentFields(current).Keys - (BunyanRequiredFields + layer.skipFields));
    CoreKeySetIsRequired(layer.hostname.Some?, time.Some?);
    assert key !in sources;
    EventRecordKeys(layer, event, values, current, time, line.record);
  }

  /**
   * The one `msg` of an event inside a span is that span's EVENT context, a
   * space and the event's text; when the text does not end in `]`, it does not
   * end in "END]".
   */
  lemma EventCloses(layer: BunyanFormattingLayer, event: Metadata, text: string, current: CurrentSpan,
                    time: Option<string>, line: Line)
    requires IsEventRecord(layer, event, map[EventMessageField := String(text)], Some(current), time, line.record)
    requires |text| >= 1 && text[|text| - 1] != ']'
    ensures MessageOnce(line.record, FormatSpanContext(current.meta.name, Event) + " " + text)
    ensures Closes(line, false)
  {
    var values := map[EventMessageField := String(text)];
    var context := FormatSpanContext(current.meta.name, Event);
    EventRecordMessage(layer, event, values, Some(current), time, line.record);
    assert FormatEventMessage(Some(current.meta.name), event.target, values) == context + " " + text;
    EventTextNotClosing(context, text);
  }

  /** An event whose only field is its message stores just that message. */
  lemma MessageOnly(text: string)
    ensures ApplyAll(map[], [(EventMessageField, DebugValue(text))]) == map[EventMessageField := String(text)]
  {
    var fields := [(EventMessageField, DebugValue(text))];
    assert fields[..0] == [];
    assert EventMessageField[0] == 'm' && LogPrefix[0] == 'l' && RawPrefix[0] == 'r';
    assert StoredKey(EventMessageField, DebugValue(text)) == Some(EventMessageField);
    assert ApplyAll(map[], fields) == Visit(map[], EventMessageField, DebugValue(text));
  }

  const ParentId: SpanId := 1
  const ChildId: SpanId := 2
  /** The creation fields of the parent, and of the child. */
  const ParentAttrs: seq<Field> := [("a", I64Value(2))]
  const ChildAttrs: seq<Field> := [("b", I64Value(3)), ("skipped", BoolValue(false))]
  /** What the storage layer keeps for the parent, and for the child, while they are open. */
  const ParentFields: Values := map["a" := Number(2)]
  const ChildFields: Values := map["a" := Number(2), "b" := Number(3), "skipped" := Bool(false)]

  /** The texts of the two events. */
  const FirstMessage: string := "pre-shaving yaks"
  const SecondMessage: string := "shaving yaks"

  /** The metadata of the two spans and the two events; their names do not matter here. */
  datatype Sites = Sites(parent: Metadata, child: Metadata, firstEvent: Metadata, secondEvent: Metadata)

  /** The parent span is created. */
  method CreateParent(layer: BunyanFormattingLayer, storage: JsonStorageLayer, sites: Sites, time: Option<string>)
    returns (start: Line)
    requires Configured(layer) && storage.storage == map[]
    modifies storage
    ensures storage.storage == map[ParentId := ParentFields] && storage.started == old(storage.started)
    ensures Run([start], time, 0)
  {
    storage.NewSpan(ParentId, None, ParentAttrs);
    assert ParentAttrs[..0] == [];
    assert storage.storage[ParentId] == ParentFields;
    start := OnNewSpan(layer, sites.parent, Some(storage.storage[ParentId]), time);
    SpanLine(layer, sites.parent, ParentFields, EnterSpan, time, start);
    OneRun(start, time, 0);
  }

  /** The parent span is entered, and an event is emitted inside it. */
  method ParentEvent(layer: BunyanFormattingLayer, storage: JsonStorageLayer, sites: Sites,
                     time: Option<string>, t0: nat)
    returns (event: Line)
    requires Configured(layer) && storage.started == map[]
    requires ParentId in storage.storage && storage.storage[ParentId] == ParentFields
    modifies storage
    ensures storage.storage == old(storage.storage) && storage.started == map[ParentId := t0]
    ensures Run([event], time, 1) && "b" !in KeySet(event.record)
  {
    storage.OnEnter(ParentId, t0);
    var current := CurrentSpan(sites.parent, Some(storage.storage[ParentId]));
    var fields := [(EventMessageField, DebugValue(FirstMessage))];
    event := OnEvent(layer, sites.firstEvent, fields, Some(current), time);
    MessageOnly(FirstMessage);
    EventLine(layer, sites.firstEvent, ApplyAll(map[], fields), Some(current), time, event);
    ScenarioKeys();
    EventLineLacks(layer, sites.firstEvent, ApplyAll(map[], fields), Some(current), time, event, "b");
    EventCloses(layer, sites.firstEvent, FirstMessage, current, time, event);
    OneRun(event, time, 1);
  }

  /** What the storage layer records for the child: the parent's fields, then its own. */
  lemma ChildStored()
    ensures ApplyAll(Inherited(map[ParentId := ParentFields], Some(ParentId)), ChildAttrs) == ChildFields
  {
    assert ChildAttrs[..1][..0] == [] && ChildAttrs[..1] == [ChildAttrs[0]];
  }

  /** The child span is created inside the parent. */
  method CreateChild(layer: BunyanFormattingLayer, storage: JsonStorageLayer, sites: Sites, time: Option<string>)
    returns (start: Line)
    requires Configured(layer) && storage.storage == map[ParentId := ParentFields]
    modifies storage
    ensures storage.storage == map[ParentId := ParentFields, ChildId := ChildFields]
    ensures storage.started == old(storage.started)
    ensures Run([start], time, 2) && ("b", Number(3)) in start.record
  {
    storage.NewSpan(ChildId, Some(ParentId), ChildAttrs);
    ChildStored();
    start := OnNewSpan(layer, sites.child, Some(storage.storage[ChildId]), time);
    SpanLine(layer, sites.child, ChildFields, EnterSpan, time, start);
    ScenarioKeys();
    SpanRecordCarries(layer, sites.child, ChildFields, EnterSpan, time, start.record, "b");
    OneRun(start, time, 2);
  }

  /** The child span is entered, and an event is emitted inside it. */
  method ChildEvent(layer: BunyanFormattingLayer, storage: JsonStorageLayer, sites: Sites,
                    time: Option<string>, t0: nat, t1: nat)
    returns (event: Line)
    requires Configured(layer) && storage.started == map[ParentId := t0]
    requires ChildId in storage.storage && storage.storage[ChildId] == ChildFields
    modifies storage
    ensures storage.storage == old(storage.storage)
    ensures storage.started == map[ParentId := t0, ChildId := t1]
    ensures Run([event], time, 3) && ("b", Number(3)) in event.record
  {
    storage.OnEnter(ChildId, t1);
    var current := CurrentSpan(sites.child, Some(storage.storage[ChildId]));
    var fields := [(EventMessageField, DebugValue(SecondMessage))];
    event := OnEvent(layer, sites.secondEvent, fields, Some(current), time);
    MessageOnly(SecondMessage);
    ScenarioKeys();
    EventLine(layer, sites.secondEvent, ApplyAll(map[], fields), Some(current), time, event);
    EventRecordCarries(layer, sites.secondEvent, ApplyAll(map[], fields), Some(current), time, event.record, "b");
    EventCloses(layer, sites.secondEvent, SecondMessage, current, time, event);
    OneRun(event, time, 3);
  }

  /** The child's guard and span are dropped: the child closes. */
  method CloseChild(layer: BunyanFormattingLayer, storage: JsonStorageLayer, sites: Sites, time: Option<string>,
                    t0: nat, t1: nat, t2: nat)
    returns (childEnd: Line)
    requires Configured(layer)
    requires storage.storage == map[ParentId := ParentFields, ChildId := ChildFields]
    requires storage.started == map[ParentId := t0, ChildId := t1]
    modifies storage
    ensures Run([childEnd], time, 4) && ("b", Number(3)) in childEnd.record
    ensures (ElapsedKey, Number(ElapsedMilliseconds(Some(t1), t2))) in childEnd.record
    ensures ParentId in storage.storage && storage.storage[ParentId] == ParentFields
    ensures storage.started == map[ParentId := t0, ChildId := t1]
  {
    storage.OnClose(ChildId, t2);
    var elapsed := Number(ElapsedMilliseconds(Some(t1), t2));
    assert storage.storage[ChildId] == ChildFields[ElapsedKey := elapsed];
    childEnd := OnClose(layer, sites.child, Some(storage.storage[ChildId]), time);
    ChildEndLine(layer, sites.child, elapsed, time, childEnd);
  }

  /** The child's END record is the scenario's fifth record, and carries `b` and the elapsed time. */
  lemma ChildEndLine(layer: BunyanFormattingLayer, span: Metadata, elapsed: Json, time: Option<string>, line: Line)
    requires Configured(layer) && line.terminator == "\n"
    requires IsSpanRecord(layer, span, ChildFields[ElapsedKey := elapsed], ExitSpan, time, line.record)
    ensures Run([line], time, 4)
    ensures ("b", Number(3)) in line.record && (ElapsedKey, elapsed) in line.record
  {
    ScenarioKeys();
    var fields := ChildFields[ElapsedKey := elapsed];
    SpanLine(layer, span, fields, ExitSpan, time, line);
    SpanRecordCarries(layer, span, fields, ExitSpan, time, line.record, "b");
    SpanRecordCarries(layer, span, fields, ExitSpan, time, line.record, ElapsedKey);
    OneRun(line, time, 4);
  }

  /** The parent's guard and span are dropped, after the child's: the parent closes. */
  method CloseParent(layer: BunyanFormattingLayer, storage: JsonStorageLayer, sites: Sites, time: Option<string>,
                     t0: nat, t3: nat)
    returns (parentEnd: Line)
    requires Configured(layer)
    requires ParentId in storage.storage && storage.storage[ParentId] == ParentFields
    requires ParentId in storage.started && storage.started[ParentId] == t0
    modifies storage
    ensures Run([parentEnd], time, 5)
    ensures (ElapsedKey, Number(ElapsedMilliseconds(Some(t0), t3))) in parentEnd.record
    ensures ParentId in storage.storage
    ensures storage.storage[ParentId] == ParentFields[ElapsedKey := Number(ElapsedMilliseconds(Some(t0), t3))]
    ensures storage.storage[ParentId].Keys == {"a", ElapsedKey}
  {
    ScenarioKeys();
    storage.OnClose(ParentId, t3);
    var parentFields := ParentFields[ElapsedKey := Number(ElapsedMilliseconds(Some(t0), t3))];
    assert storage.storage[ParentId] == parentFields;
    parentEnd := OnClose(layer, sites.parent, Some(storage.storage[ParentId]), time);
    SpanLine(layer, sites.parent, parentFields, ExitSpan, time, parentEnd);
    SpanRecordCarries(layer, sites.parent, parentFields, ExitSpan, time, parentEnd.record, ElapsedKey);
    OneRun(parentEnd, time, 5);
  }

  /**
   * The scenario: every record carries the required keys, the default field and
   * the parent's `a`, and never `skipped`; each record's one `msg` is its span
   * context (or, for an event, the current span's EVENT context and the text),
   * and ends in "END]" exactly for the two closing records; the child's records
   * and the inner event carry `b`, the outer event does not; each END record
   * carries the span's elapsed milliseconds; and the child's fields never reach
   * the parent's storage. `time` is the formatted clock, `t0` to `t3` the
   * instants of the two enters and the two closes.
   */
  method ShavingYaks(sites: Sites, pid: U32, machineHostname: string, time: Option<string>,
                     t0: nat, t1: nat, t2: nat, t3: nat)
    returns (lines: seq<Line>, parentFields: Values)
    ensures |lines| == 6
    ensures Run(lines, time, 0)
    ensures ("b", Number(3)) in lines[2].record && ("b", Number(3)) in lines[4].record
    ensures ("b", Number(3)) in lines[3].record && "b" !in KeySet(lines[1].record)
    ensures (ElapsedKey, Number(ElapsedMilliseconds(Some(t1), t2))) in lines[4].record
    ensures (ElapsedKey, Number(ElapsedMilliseconds(Some(t0), t3))) in lines[5].record
    ensures parentFields.Keys == {"a", ElapsedKey}
  {
    var layer := TestFormatter(pid, machineHostname);
    var storage := new JsonStorageLayer();
    var start := CreateParent(layer, storage, sites, time);
    var first := ParentEvent(layer, storage, sites, time, t0);
    var childStart := CreateChild(layer, storage, sites, time);
    var second := ChildEvent(layer, storage, sites, time, t0, t1);
    var childEnd := CloseChild(layer, storage, sites, time, t0, t1, t2);
    var end := CloseParent(layer, storage, sites, time, t0, t3);
    SixRuns(start, first, childStart, second, childEnd, end, time);
    lines := [start, first, childStart, second, childEnd, end];
    parentFields := storage.storage[ParentId];
  }
}
