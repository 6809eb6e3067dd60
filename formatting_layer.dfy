/**
 * The record formatter (`BunyanFormattingLayer`): its configuration, the pure
 * message and level rules, and the step-by-step assembly of one Bunyan record
 * for a span that starts or ends and for an event.
 */
module FormattingLayer {
  import opened Wrappers
  import opened Json
  import opened Text
  import opened StorageLayer

  // Keys of the core fields of the Bunyan format.
  const VersionKey: string := "v"
  const LevelKey: string := "level"
  const NameKey: string := "name"
  const HostnameKey: string := "hostname"
  const PidKey: string := "pid"
  const TimeKey: string := "time"
  const MessageKey: string := "msg"

  /** The core fields every record carries; none of them can be skipped or overridden. */
  const BunyanRequiredFields: set<string> :=
    {VersionKey, LevelKey, NameKey, HostnameKey, PidKey, TimeKey, MessageKey}

  /** The field that carries an event's text; it is not copied into event records. */
  const EventMessageField: string := "message"

  // ---------------------------------------------------------------- levels

  datatype Level = Trace | Debug | Info | Warn | Error

  /** Position in the severity order trace < debug < info < warn < error. */
  function Severity(level: Level): nat
  {
    match level
    case Trace => 0
    case Debug => 1
    case Info => 2
    case Warn => 3
    case Error => 4
  }

  /** `to_bunyan_level`: the numeric Bunyan level of a tracing level. */
  function ToBunyanLevel(level: Level): (code: U16)
    ensures code in {10, 20, 30, 40, 50}
  {
    match level
    case Error => 50
    case Warn => 40
    case Info => 30
    case Debug => 20
    case Trace => 10
  }

  /** Distinct levels get distinct codes, and a more severe level a larger one. */
  lemma BunyanLevelFollowsSeverity(a: Level, b: Level)
    ensures Severity(a) < Severity(b) <==> ToBunyanLevel(a) < ToBunyanLevel(b)
    ensures ToBunyanLevel(a) == ToBunyanLevel(b) <==> a == b
  {
  }

  // --------------------------------------------------------- configuration

  /**
   * The formatter's configuration. The writer factory is not modelled; the
   * process id and the machine's host name are supplied by the caller.
   */
  datatype BunyanFormattingLayer = BunyanFormattingLayer(
    pid: U32,
    hostname: Option<string>,
    bunyanVersion: U8,
    name: string,
    defaultFields: map<string, Json>,
    skipFields: set<string>)
  {
    /** No required key is ever in the skip set. */
    predicate Valid()
    {
      forall f :: f in skipFields ==> f !in BunyanRequiredFields
    }
  }

  /** `with_default_fields`, with the process id and the host name as parameters. */
  function WithDefaultFields(name: string, defaultFields: map<string, Json>, pid: U32, machineHostname: string)
    : (layer: BunyanFormattingLayer)
    ensures layer.Valid() && layer.skipFields == {}
    ensures layer.bunyanVersion == 0 && layer.hostname == Some(machineHostname)
    ensures layer.name == name && layer.pid == pid && layer.defaultFields == defaultFields
  {
    BunyanFormattingLayer(pid, Some(machineHostname), 0, name, defaultFields, {})
  }

  /** `new`: a configuration without default fields. */
  function New(name: string, pid: U32, machineHostname: string): (layer: BunyanFormattingLayer)
    ensures layer.Valid() && layer.skipFields == {} && layer.defaultFields == map[]
    ensures layer.bunyanVersion == 0 && layer.hostname == Some(machineHostname)
    ensures layer.name == name && layer.pid == pid
  {
    WithDefaultFields(name, map[], pid, machineHostname)
  }

  /** `with_hostname`: replaces the host name (None leaves the field out) and nothing else. */
  function WithHostname(layer: BunyanFormattingLayer, hostname: Option<string>): (r: BunyanFormattingLayer)
    ensures r.hostname == hostname && r.(hostname := layer.hostname) == layer
    ensures layer.Valid() ==> r.Valid()
  {
    layer.(hostname := hostname)
  }

  /** `SkipFieldError`: an attempt to skip the named core field. */
  datatype SkipFieldError = SkipFieldError(field: string)

  const SkipFieldReason: string := " is a core field in the bunyan log format, it can't be skipped"

  /** The `Display` text of a `SkipFieldError`: the field's name, then the reason. */
  function SkipFieldErrorMessage(e: SkipFieldError): (text: string)
    ensures StartsWith(text, e.field) && text[|e.field|..] == SkipFieldReason
  {
    e.field + SkipFieldReason
  }

  /**
   * `skip_fields`: adds the fields to the skip set in order, failing on the first
   * one that is a required key.
   */
  method SkipFields(layer: BunyanFormattingLayer, fields: seq<string>)
    returns (r: Result<BunyanFormattingLayer, SkipFieldError>)
    ensures r.Failure? <==> exists i :: 0 <= i < |fields| && fields[i] in BunyanRequiredFields
    ensures r.Failure? ==>
      exists i :: (0 <= i < |fields| && fields[i] == r.error.field && fields[i] in BunyanRequiredFields
        && forall j :: 0 <= j < i ==> fields[j] !in BunyanRequiredFields)
    ensures r.Success? ==>
      r.value == layer.(skipFields := layer.skipFields + set f | f in fields)
    ensures r.Success? && layer.Valid() ==> r.value.Valid()
  {
    var skip := layer.skipFields;
    for i := 0 to |fields|
      invariant skip == layer.skipFields + set f | f in fields[..i]
      invariant forall j :: 0 <= j < i ==> fields[j] !in BunyanRequiredFields
    {
      var field := fields[i];
      if field in BunyanRequiredFields {
        return Failure(SkipFieldError(field));
      }
      assert fields[..i + 1] == fields[..i] + [field];
      skip := skip + {field};
    }
    assert fields[..|fields|] == fields;
    r := Success(layer.(skipFields := skip));
  }

  // ---------------------------------------------------------- span context

  /** The kind of record: a span that starts, a span that ends, an event. */
  datatype RecordType = EnterSpan | ExitSpan | Event

  /** The `Display` text of a record type. */
  function TypeName(ty: RecordType): (text: string)
    ensures text in {"START", "END", "EVENT"}
    ensures text == "START" <==> ty == EnterSpan
    ensures text == "END" <==> ty == ExitSpan
    ensures text == "EVENT" <==> ty == Event
  {
    match ty
    case EnterSpan => "START"
    case ExitSpan => "END"
    case Event => "EVENT"
  }

  /** ASCII upper-casing of one character. */
  function UpperChar(c: char): char
  {
    if 'a' <= c <= 'z' then (c as int - 32) as char else c
  }

  /** Upper-casing of a span name, character by character. */
  function ToUpper(s: string): (r: string)
    ensures |r| == |s|
    ensures forall i :: 0 <= i < |s| ==> r[i] == UpperChar(s[i])
    ensures forall i :: 0 <= i < |r| ==> !('a' <= r[i] <= 'z')
  {
    if s == [] then [] else [UpperChar(s[0])] + ToUpper(s[1..])
  }

  /** What follows the span name in a span context. */
  function ContextSuffix(ty: RecordType): string
  {
    " - " + TypeName(ty) + "]"
  }

  /** `format_span_context`: "[NAME - START]", "[NAME - END]" or "[NAME - EVENT]". */
  function FormatSpanContext(spanName: string, ty: RecordType): string
  {
    "[" + ToUpper(spanName) + " - " + TypeName(ty) + "]"
  }

  /** The name inside `text` if it is a span context of record type `ty`. */
  function StripContext(text: string, ty: RecordType): Option<string>
  {
    var suffix := ContextSuffix(ty);
    if 1 + |suffix| <= |text| && text[0] == '[' && EndsWith(text, suffix)
    then Some(text[1..|text| - |suffix|])
    else None
  }

  /** Reads a span context back into its (upper-cased) name and record type. */
  function ParseSpanContext(text: string): Option<(string, RecordType)>
  {
    match StripContext(text, EnterSpan)
    case Some(n) => Some((n, EnterSpan))
    case None =>
      match StripContext(text, ExitSpan)
      case Some(n) => Some((n, ExitSpan))
      case None =>
        match StripContext(text, Event)
        case Some(n) => Some((n, Event))
        case None => None
  }

  /** A span context determines the upper-cased span name and the record type. */
  lemma SpanContextRoundTrip(spanName: string, ty: RecordType)
    ensures ParseSpanContext(FormatSpanContext(spanName, ty)) == Some((ToUpper(spanName), ty))
  {
    var upper := ToUpper(spanName);
    var text := FormatSpanContext(spanName, ty);
    assert text == "[" + upper + ContextSuffix(ty);
    var n := |text|;
    assert text[n - |ContextSuffix(ty)|..] == ContextSuffix(ty);
    assert text[1..n - |ContextSuffix(ty)|] == upper;
    // The last characters tell the three suffixes apart: "ART]", "END]", "ENT]".
    assert text[n - 2] == TypeName(ty)[|TypeName(ty)| - 1];
    assert text[n - 3] == TypeName(ty)[|TypeName(ty)| - 2];
    match ty
    case EnterSpan =>
    case ExitSpan =>
      assert text[n - 2] != ContextSuffix(EnterSpan)[|ContextSuffix(EnterSpan)| - 2];
      EndsWithAt(text, ContextSuffix(EnterSpan), 2);
      assert StripContext(text, EnterSpan) == None;
    case Event =>
      assert text[n - 3] != ContextSuffix(EnterSpan)[|ContextSuffix(EnterSpan)| - 3];
      EndsWithAt(text, ContextSuffix(EnterSpan), 3);
      assert StripContext(text, EnterSpan) == None;
      assert text[n - 2] != ContextSuffix(ExitSpan)[|ContextSuffix(ExitSpan)| - 2];
      EndsWithAt(text, ContextSuffix(ExitSpan), 2);
      assert StripContext(text, ExitSpan) == None;
  }

  /** Of the three suffixes only the one of a span that ends ends in "END]". */
  lemma SuffixEndsWithEnd(ty: RecordType)
    ensures EndsWith(ContextSuffix(ty), "END]") <==> ty == ExitSpan
  {
    var suffix := ContextSuffix(ty);
    match ty
    case EnterSpan =>
      assert suffix == " - START]" && suffix[|suffix| - 4] == 'A';
    case ExitSpan =>
      assert suffix == " - END]" && suffix[|suffix| - 4..] == "END]";
    case Event =>
      assert suffix == " - EVENT]" && suffix[|suffix| - 3] == 'N';
  }

  /** Only the context of a span that ends ends in "END]". */
  lemma SpanContextEndsWithEnd(spanName: string, ty: RecordType)
    ensures EndsWith(FormatSpanContext(spanName, ty), "END]") <==> ty == ExitSpan
  {
    var suffix := ContextSuffix(ty);
    assert FormatSpanContext(spanName, ty) == ("[" + ToUpper(spanName)) + suffix;
    assert |suffix| >= 4 by { assert |TypeName(ty)| >= 3; }
    EndsWithTail("[" + ToUpper(spanName), suffix, "END]");
    SuffixEndsWithEnd(ty);
  }

  // ------------------------------------------------------------ event text

  /** An event's own text: its `message` field when that is a JSON string, else its target. */
  function EventText(values: Values, target: string): (text: string)
    ensures EventMessageField in values && values[EventMessageField].String? ==>
      text == values[EventMessageField].s
    ensures !(EventMessageField in values && values[EventMessageField].String?) ==> text == target
  {
    if EventMessageField in values && values[EventMessageField].String?
    then values[EventMessageField].s
    else target
  }

  /**
   * `format_event_message`: the event's text, after the current span's EVENT
   * context and a space when there is a current span.
   */
  function FormatEventMessage(currentSpan: Option<string>, target: string, values: Values): (msg: string)
    ensures currentSpan.None? ==> msg == EventText(values, target)
    ensures currentSpan.Some? ==>
      var context := FormatSpanContext(currentSpan.value, Event);
      && StartsWith(msg, context + " ")
      && msg[|context| + 1..] == EventText(values, target)
  {
    match currentSpan
    case None => EventText(values, target)
    case Some(spanName) => FormatSpanContext(spanName, Event) + " " + EventText(values, target)
  }

  /** The message of an event inside a span reads back as that span's EVENT context. */
  lemma EventMessageNamesSpan(spanName: string, target: string, values: Values)
    ensures var msg, context := FormatEventMessage(Some(spanName), target, values), FormatSpanContext(spanName, Event);
      ParseSpanContext(msg[..|context|]) == Some((ToUpper(spanName), Event))
  {
    var context := FormatSpanContext(spanName, Event);
    assert FormatEventMessage(Some(spanName), target, values)[..|context|] == context;
    SpanContextRoundTrip(spanName, Event);
  }

  // --------------------------------------------------------------- records

  /** The metadata of a span or an event, as the formatter reads it. */
  datatype Metadata = Metadata(
    name: string,
    target: string,
    level: Level,
    file: Option<string>,
    line: Option<U32>)

  /** The current span of an event: its metadata and its `JsonStorage`, if it has one. */
  datatype CurrentSpan = CurrentSpan(meta: Metadata, storage: Option<Values>)

  /** One complete record: the entries of its JSON object, then what follows the object. */
  datatype Line = Line(record: seq<Entry>, terminator: string)

  function LineNumber(line: Option<U32>): Json
  {
    match line
    case Some(n) => Number(n)
    case None => Null
  }

  function FileName(file: Option<string>): Json
  {
    match file
    case Some(f) => String(f)
    case None => Null
  }

  /** The keys of a list of entries, in order. */
  function KeyOrder(entries: seq<Entry>): (keys: seq<string>)
    ensures |keys| == |entries|
    ensures forall i :: 0 <= i < |entries| ==> keys[i] == entries[i].0
  {
    if entries == [] then [] else [entries[0].0] + KeyOrder(entries[1..])
  }

  /** The entries `serialize_bunyan_core_fields` writes. */
  function CoreEntries(layer: BunyanFormattingLayer, message: string, level: Level, time: Option<string>)
    : seq<Entry>
  {
    [(VersionKey, Number(layer.bunyanVersion)),
     (NameKey, String(layer.name)),
     (MessageKey, String(message)),
     (LevelKey, Number(ToBunyanLevel(level)))]
    + (if layer.hostname.Some? then [(HostnameKey, String(layer.hostname.value))] else [])
    + [(PidKey, Number(layer.pid))]
    + (if time.Some? then [(TimeKey, String(time.value))] else [])
  }

  /** The keys of the core fields, in the order they are written. */
  function CoreKeys(hasHostname: bool, hasTime: bool): seq<string>
  {
    [VersionKey, NameKey, MessageKey, LevelKey]
    + (if hasHostname then [HostnameKey] else [])
    + [PidKey]
    + (if hasTime then [TimeKey] else [])
  }

  /**
   * The core fields come first, in the fixed order v, name, msg, level,
   * [hostname], pid, [time], each a required key and none twice: the hostname
   * only when one is configured, the time only when formatting it succeeded.
   */
  lemma CoreEntriesOrder(layer: BunyanFormattingLayer, message: string, level: Level, time: Option<string>)
    ensures var entries := CoreEntries(layer, message, level, time);
      && KeyOrder(entries) == CoreKeys(layer.hostname.Some?, time.Some?)
      && (forall i :: 0 <= i < |entries| ==> entries[i].0 in BunyanRequiredFields)
      && DistinctKeys(entries)
  {
    var entries := CoreEntries(layer, message, level, time);
    var keys := CoreKeys(layer.hostname.Some?, time.Some?);
    assert |entries| == |keys|;
    assert forall i :: 0 <= i < |entries| ==> entries[i].0 == keys[i];
    CoreKeysDistinct(layer.hostname.Some?, time.Some?);
  }

  /** The core keys are required keys, and no two of them are equal. */
  lemma CoreKeysDistinct(hasHostname: bool, hasTime: bool)
    ensures var keys := CoreKeys(hasHostname, hasTime);
      && (forall i :: 0 <= i < |keys| ==> keys[i] in BunyanRequiredFields)
      && forall i, j :: 0 <= i < j < |keys| ==> keys[i] != keys[j]
  {
    var keys := CoreKeys(hasHostname, hasTime);
    // The keys already differ in their first character.
    var initials := seq(|keys|, i requires 0 <= i < |keys| => keys[i][0]);
    if hasHostname && hasTime {
      assert initials == ['v', 'n', 'm', 'l', 'h', 'p', 't'];
    } else if hasHostname {
      assert initials == ['v', 'n', 'm', 'l', 'h', 'p'];
    } else if hasTime {
      assert initials == ['v', 'n', 'm', 'l', 'p', 't'];
    } else {
      assert initials == ['v', 'n', 'm', 'l', 'p'];
    }
  }

  /** The keys of the core fields: the five fixed ones, `hostname` and `time` when present. */
  function CoreKeySet(hasHostname: bool, hasTime: bool): set<string>
  {
    {VersionKey, NameKey, MessageKey, LevelKey, PidKey}
    + (if hasHostname then {HostnameKey} else {})
    + (if hasTime then {TimeKey} else {})
  }

  /** With a host name, the core keys are all seven required keys, or all but `time`. */
  lemma CoreKeySetRequired()
    ensures CoreKeySet(true, true) == BunyanRequiredFields
    ensures CoreKeySet(true, false) == BunyanRequiredFields - {TimeKey}
  {
  }

  /** The core keys are required keys. */
  lemma CoreKeySetIsRequired(hasHostname: bool, hasTime: bool)
    ensures CoreKeySet(hasHostname, hasTime) <= BunyanRequiredFields
  {
  }

  /** The core fields use exactly the core keys. */
  lemma CoreEntriesKeys(layer: BunyanFormattingLayer, message: string, level: Level, time: Option<string>)
    ensures KeySet(CoreEntries(layer, message, level, time)) == CoreKeySet(layer.hostname.Some?, time.Some?)
  {
    var entries := CoreEntries(layer, message, level, time);
    CoreEntriesOrder(layer, message, level, time);
    KeySetOfKeys(entries, CoreKeys(layer.hostname.Some?, time.Some?));
    CoreKeysAsSet(layer.hostname.Some?, time.Some?);
  }

  /** The core keys, as a set. */
  lemma CoreKeysAsSet(hasHostname: bool, hasTime: bool)
    ensures (set k | k in CoreKeys(hasHostname, hasTime)) == CoreKeySet(hasHostname, hasTime)
  {
    var keys := CoreKeys(hasHostname, hasTime);
    if hasHostname && hasTime {
      assert keys == [VersionKey, NameKey, MessageKey, LevelKey, HostnameKey, PidKey, TimeKey];
    } else if hasHostname {
      assert keys == [VersionKey, NameKey, MessageKey, LevelKey, HostnameKey, PidKey];
    } else if hasTime {
      assert keys == [VersionKey, NameKey, MessageKey, LevelKey, PidKey, TimeKey];
    } else {
      assert keys == [VersionKey, NameKey, MessageKey, LevelKey, PidKey];
    }
  }

  /** The entry, unless its key is skipped. */
  function Unskipped(skip: set<string>, e: Entry): seq<Entry>
  {
    if e.0 in skip then [] else [e]
  }

  /** The debugging aids `target`, `line` and `file`, each unless skipped. */
  function DebugAids(layer: BunyanFormattingLayer, meta: Metadata): seq<Entry>
  {
    Unskipped(layer.skipFields, ("target", String(meta.target)))
    + Unskipped(layer.skipFields, ("line", LineNumber(meta.line)))
    + Unskipped(layer.skipFields, ("file", FileName(meta.file)))
  }

  /** The keys of the debugging aids. */
  const DebugAidKeys: set<string> := {"target", "line", "file"}

  /** The debugging aids use exactly the aid keys that are not skipped. */
  lemma DebugAidsKeys(layer: BunyanFormattingLayer, meta: Metadata)
    ensures KeySet(DebugAids(layer, meta)) == DebugAidKeys - layer.skipFields
  {
    var t := Unskipped(layer.skipFields, ("target", String(meta.target)));
    var l := Unskipped(layer.skipFields, ("line", LineNumber(meta.line)));
    var f := Unskipped(layer.skipFields, ("file", FileName(meta.file)));
    KeySetConcat(t, l);
    KeySetConcat(t + l, f);
    KeySetSmall(("target", String(meta.target)));
    KeySetSmall(("line", LineNumber(meta.line)));
    KeySetSmall(("file", FileName(meta.file)));
  }

  /** What a span record starts with: the core fields, then the debugging aids. */
  function SpanHead(layer: BunyanFormattingLayer, span: Metadata, ty: RecordType, time: Option<string>): seq<Entry>
  {
    CoreEntries(layer, FormatSpanContext(span.name, ty), span.level, time) + DebugAids(layer, span)
  }

  /**
   * A record for a span: the head, then the default fields, then the span's
   * stored fields, each group in map order and without required or skipped keys.
   */
  ghost predicate IsSpanRecord(layer: BunyanFormattingLayer, span: Metadata, fields: Values,
                               ty: RecordType, time: Option<string>, record: seq<Entry>)
  {
    var reserved := BunyanRequiredFields + layer.skipFields;
    Layout2(record, SpanHead(layer, span, ty, time), layer.defaultFields, reserved, fields, reserved)
  }

  /** The name of an event's current span, if any. */
  function CurrentName(current: Option<CurrentSpan>): Option<string>
  {
    if current.Some? then Some(current.value.meta.name) else None
  }

  /** The stored fields of an event's current span (none without one). */
  function CurrentFields(current: Option<CurrentSpan>): Values
  {
    if current.Some? && current.value.storage.Some? then current.value.storage.value else map[]
  }

  /** What an event record starts with: the core fields, then the debugging aids. */
  function EventHead(layer: BunyanFormattingLayer, event: Metadata, values: Values,
                     current: Option<CurrentSpan>, time: Option<string>): seq<Entry>
  {
    CoreEntries(layer, FormatEventMessage(CurrentName(current), event.target, values), event.level, time)
    + DebugAids(layer, event)
  }

  /**
   * A record for an event: the head, then the default fields and the event's own
   * fields (both without `message`), then the current span's stored fields; each
   * group in map order and without required or skipped keys.
   */
  ghost predicate IsEventRecord(layer: BunyanFormattingLayer, event: Metadata, values: Values,
                                current: Option<CurrentSpan>, time: Option<string>, record: seq<Entry>)
  {
    var reserved := BunyanRequiredFields + {EventMessageField} + layer.skipFields;
    Layout3(record, EventHead(layer, event, values, current, time), layer.defaultFields, reserved,
            values, reserved, CurrentFields(current), BunyanRequiredFields + layer.skipFields)
  }

  /** The JSON map serializer of one record: the entries written so far. */
  class MapSerializer {
    var entries: seq<Entry>

    constructor ()
      ensures entries == []
    {
      entries := [];
    }

    method SerializeEntry(key: string, value: Json)
      modifies this
      ensures entries == old(entries) + [(key, value)]
    {
      entries := entries + [(key, value)];
    }
  }

  /** `serialize_bunyan_core_fields`. */
  method SerializeBunyanCoreFields(layer: BunyanFormattingLayer, ser: MapSerializer,
                                   message: string, level: Level, time: Option<string>)
    modifies ser
    ensures ser.entries == old(ser.entries) + CoreEntries(layer, message, level, time)
  {
    ser.SerializeEntry(VersionKey, Number(layer.bunyanVersion));
    ser.SerializeEntry(NameKey, String(layer.name));
    ser.SerializeEntry(MessageKey, String(message));
    ser.SerializeEntry(LevelKey, Number(ToBunyanLevel(level)));
    if layer.hostname.Some? {
      ser.SerializeEntry(HostnameKey, String(layer.hostname.value));
    }
    ser.SerializeEntry(PidKey, Number(layer.pid));
    if time.Some? {
      ser.SerializeEntry(TimeKey, String(time.value));
    }
  }

  /** `serialize_field`: writes the entry unless its key is skipped. */
  method SerializeField(layer: BunyanFormattingLayer, ser: MapSerializer, key: string, value: Json)
    modifies ser
    ensures key in layer.skipFields ==> ser.entries == old(ser.entries)
    ensures key !in layer.skipFields ==> ser.entries == old(ser.entries) + [(key, value)]
  {
    if key !in layer.skipFields {
      ser.SerializeEntry(key, value);
    }
  }

  /** Writes `target`, `line` and `file` through `serialize_field`. */
  method SerializeDebugAids(layer: BunyanFormattingLayer, ser: MapSerializer, meta: Metadata)
    modifies ser
    ensures ser.entries == old(ser.entries) + DebugAids(layer, meta)
  {
    SerializeField(layer, ser, "target", String(meta.target));
    SerializeField(layer, ser, "line", LineNumber(meta.line));
    SerializeField(layer, ser, "file", FileName(meta.file));
  }

  /** The head of every record: the core fields, then the debugging aids. */
  method SerializeHead(layer: BunyanFormattingLayer, ser: MapSerializer, message: string, meta: Metadata,
                       time: Option<string>)
    modifies ser
    requires ser.entries == []
    ensures ser.entries == CoreEntries(layer, message, meta.level, time) + DebugAids(layer, meta)
  {
    SerializeBunyanCoreFields(layer, ser, message, meta.level, time);
    SerializeDebugAids(layer, ser, meta);
  }

  /**
   * A loop over a field map in its iteration order: every entry whose key is not
   * reserved goes through `serialize_field`.
   */
  method SerializeFields(layer: BunyanFormattingLayer, ser: MapSerializer, fields: Values, reserved: set<string>)
    returns (added: seq<Entry>)
    modifies ser
    ensures ser.entries == old(ser.entries) + added
    ensures Listing(added, fields, reserved + layer.skipFields)
  {
    added := [];
    var pending := fields.Keys;
    while pending != {}
      invariant pending <= fields.Keys
      invariant ser.entries == old(ser.entries) + added
      invariant Listing(added, fields, reserved + layer.skipFields + pending)
      decreases pending
    {
      var key :| key in pending;
      pending := pending - {key};
      if key !in reserved {
        SerializeField(layer, ser, key, fields[key]);
        if key !in layer.skipFields {
          assert reserved + layer.skipFields + pending + {key} == reserved + layer.skipFields + (pending + {key});
          ListingAppend(added, fields, reserved + layer.skipFields + pending, key);
          added := added + [(key, fields[key])];
        } else {
          assert reserved + layer.skipFields + pending == reserved + layer.skipFields + (pending + {key});
        }
      } else {
        assert reserved + layer.skipFields + pending == reserved + layer.skipFields + (pending + {key});
      }
    }
    assert reserved + layer.skipFields + pending == reserved + layer.skipFields;
  }

  /**
   * `serialize_span`: the record of a span that starts or ends, followed by a
   * newline. `time` is the formatted current time, None when formatting failed;
   * `storage` is the span's `JsonStorage`, if it has one.
   */
  method SerializeSpan(layer: BunyanFormattingLayer, span: Metadata, storage: Option<Values>,
                       ty: RecordType, time: Option<string>)
    returns (line: Line)
    ensures line.terminator == "\n"
    ensures IsSpanRecord(layer, span, if storage.Some? then storage.value else map[], ty, time, line.record)
  {
    var ser := new MapSerializer();
    SerializeHead(layer, ser, FormatSpanContext(span.name, ty), span, time);
    ghost var head := ser.entries;
    var defaults := SerializeFields(layer, ser, layer.defaultFields, BunyanRequiredFields);
    var own: seq<Entry> := [];
    ghost var fields: Values := map[];
    if storage.Some? {
      own := SerializeFields(layer, ser, storage.value, BunyanRequiredFields);
      fields := storage.value;
    }
    line := Line(ser.entries, "\n");
    Layout2Intro(line.record, head, defaults, own, layer.defaultFields,
                 BunyanRequiredFields + layer.skipFields, fields, BunyanRequiredFields + layer.skipFields);
  }

  /** `on_new_span`: the START record of a new span. */
  method OnNewSpan(layer: BunyanFormattingLayer, span: Metadata, storage: Option<Values>, time: Option<string>)
    returns (line: Line)
    ensures line.terminator == "\n"
    ensures IsSpanRecord(layer, span, if storage.Some? then storage.value else map[], EnterSpan, time, line.record)
  {
    line := SerializeSpan(layer, span, storage, EnterSpan, time);
  }

  /** `on_close`: the END record of a span. */
  method OnClose(layer: BunyanFormattingLayer, span: Metadata, storage: Option<Values>, time: Option<string>)
    returns (line: Line)
    ensures line.terminator == "\n"
    ensures IsSpanRecord(layer, span, if storage.Some? then storage.value else map[], ExitSpan, time, line.record)
  {
    line := SerializeSpan(layer, span, storage, ExitSpan, time);
  }

  /**
   * The `format` closure of `on_event`: the record of an event whose fields have
   * been recorded into `values`.
   */
  method FormatEvent(layer: BunyanFormattingLayer, event: Metadata, values: Values,
                     current: Option<CurrentSpan>, time: Option<string>)
    returns (line: Line)
    ensures line.terminator == "\n"
    ensures IsEventRecord(layer, event, values, current, time, line.record)
  {
    var ser := new MapSerializer();
    SerializeHead(layer, ser, FormatEventMessage(CurrentName(current), event.target, values), event, time);
    ghost var head := ser.entries;
    var defaults := SerializeFields(layer, ser, layer.defaultFields, BunyanRequiredFields + {EventMessageField});
    var own := SerializeFields(layer, ser, values, BunyanRequiredFields + {EventMessageField});
    var inherited: seq<Entry> := [];
    if current.Some? && current.value.storage.Some? {
      inherited := SerializeFields(layer, ser, current.value.storage.value, BunyanRequiredFields);
    }
    line := Line(ser.entries, "\n");
    Layout3Intro(line.record, head, defaults, own, inherited,
                 layer.defaultFields, BunyanRequiredFields + {EventMessageField} + layer.skipFields,
                 values, BunyanRequiredFields + {EventMessageField} + layer.skipFields,
                 CurrentFields(current), BunyanRequiredFields + layer.skipFields);
  }

  /**
   * `on_event`: the event's fields are recorded into a fresh `JsonStorage`, and the
   * record is built from them, the configuration and the current span.
   */
  method OnEvent(layer: BunyanFormattingLayer, event: Metadata, eventFields: seq<Field>,
                 current: Option<CurrentSpan>, time: Option<string>)
    returns (line: Line)
    ensures line.terminator == "\n"
    ensures IsEventRecord(layer, event, ApplyAll(map[], eventFields), current, time, line.record)
  {
    var visitor := new JsonStorage.Default();
    visitor.RecordAll(eventFields);
    line := FormatEvent(layer, event, visitor.values, current, time);
  }

  // ------------------------------------------------------ record properties

  /**
   * After its head, a span record holds only default or span fields, never a
   * required key and never a skipped one.
   */
  lemma SpanRecordBody(layer: BunyanFormattingLayer, span: Metadata, fields: Values,
                       ty: RecordType, time: Option<string>, record: seq<Entry>)
    requires IsSpanRecord(layer, span, fields, ty, time, record)
    ensures var head := SpanHead(layer, span, ty, time);
      && |head| <= |record| && record[..|head|] == head
      && forall i :: |head| <= i < |record| ==>
        && record[i].0 !in BunyanRequiredFields
        && record[i].0 !in layer.skipFields
        && (record[i].0 in layer.defaultFields || record[i].0 in fields)
  {
    var head := SpanHead(layer, span, ty, time);
    var reserved := BunyanRequiredFields + layer.skipFields;
    Layout2Head(record, head, layer.defaultFields, reserved, fields, reserved);
    forall i | |head| <= i < |record|
      ensures record[i].0 !in BunyanRequiredFields && record[i].0 !in layer.skipFields
      ensures record[i].0 in layer.defaultFields || record[i].0 in fields
    {
      Layout2Entry(record, head, layer.defaultFields, reserved, fields, reserved, i);
    }
  }

  /** The keys of a record's head that the configuration could have skipped are not skipped. */
  lemma HeadKeysNotSkipped(layer: BunyanFormattingLayer, message: string, level: Level,
                           time: Option<string>, meta: Metadata, key: string)
    requires layer.Valid() && key in layer.skipFields
    ensures key !in KeySet(CoreEntries(layer, message, level, time) + DebugAids(layer, meta))
  {
    var core: seq<Entry> := CoreEntries(layer, message, level, time);
    var aids: seq<Entry> := DebugAids(layer, meta);
    var head: seq<Entry> := core + aids;
    CoreEntriesOrder(layer, message, level, time);
    forall i | 0 <= i < |head| ensures head[i].0 != key {
      if i < |core| {
        assert head[i] == core[i];
      } else {
        assert head[i] == aids[i - |core|];
        AidKeys(layer, meta);
      }
    }
  }

  /** A skipped field never appears in a span record, wherever its value came from. */
  lemma SpanRecordOmitsSkipped(layer: BunyanFormattingLayer, span: Metadata, fields: Values,
                               ty: RecordType, time: Option<string>, record: seq<Entry>, key: string)
    requires layer.Valid()
    requires IsSpanRecord(layer, span, fields, ty, time, record)
    requires key in layer.skipFields
    ensures key !in KeySet(record)
  {
    var head := SpanHead(layer, span, ty, time);
    SpanRecordBody(layer, span, fields, ty, time, record);
    HeadKeysNotSkipped(layer, FormatSpanContext(span.name, ty), span.level, time, span, key);
    forall i | 0 <= i < |record| ensures record[i].0 != key {
      if i < |head| {
        assert record[i] == record[..|head|][i];
        assert head[i].0 in KeySet(head);
      }
    }
  }

  /**
   * Every default field and every span field that is neither required nor
   * skipped appears in a span record with its value.
   */
  lemma SpanRecordCarries(layer: BunyanFormattingLayer, span: Metadata, fields: Values,
                          ty: RecordType, time: Option<string>, record: seq<Entry>, key: string)
    requires IsSpanRecord(layer, span, fields, ty, time, record)
    requires key !in BunyanRequiredFields && key !in layer.skipFields
    ensures key in layer.defaultFields ==> (key, layer.defaultFields[key]) in record
    ensures key in fields ==> (key, fields[key]) in record
  {
    var reserved := BunyanRequiredFields + layer.skipFields;
    Layout2Has(record, SpanHead(layer, span, ty, time), layer.defaultFields, reserved, fields, reserved, key);
  }

  /**
   * The serializer does not merge keys: a key that is both a default field and a
   * span field is written twice, the default value first.
   */
  lemma SpanRecordRepeatsSharedKey(layer: BunyanFormattingLayer, span: Metadata, fields: Values,
                                   ty: RecordType, time: Option<string>, record: seq<Entry>, key: string)
    requires IsSpanRecord(layer, span, fields, ty, time, record)
    requires key !in BunyanRequiredFields && key !in layer.skipFields
    requires key in layer.defaultFields && key in fields
    ensures exists i, j ::
      (0 <= i < j < |record| && record[i] == (key, layer.defaultFields[key]) && record[j] == (key, fields[key]))
  {
    var reserved := BunyanRequiredFields + layer.skipFields;
    Layout2Has(record, SpanHead(layer, span, ty, time), layer.defaultFields, reserved, fields, reserved, key);
  }

  /** The debugging aids are `target`, `line` and `file`, none of them skipped, and never a required key. */
  lemma AidKeys(layer: BunyanFormattingLayer, meta: Metadata)
    ensures var aids := DebugAids(layer, meta);
      forall i :: 0 <= i < |aids| ==>
        && aids[i].0 in {"target", "line", "file"}
        && aids[i].0 !in layer.skipFields
        && aids[i].0 !in BunyanRequiredFields
  {
  }

  /** A required key occurs at most once in a span record, among its core fields. */
  lemma SpanRecordRequiredOnce(layer: BunyanFormattingLayer, span: Metadata, fields: Values,
                               ty: RecordType, time: Option<string>, record: seq<Entry>)
    requires IsSpanRecord(layer, span, fields, ty, time, record)
    ensures forall i, j :: 0 <= i < j < |record| && record[i].0 in BunyanRequiredFields ==>
      record[i].0 != record[j].0
  {
    var message := FormatSpanContext(span.name, ty);
    var core: seq<Entry> := CoreEntries(layer, message, span.level, time);
    var aids: seq<Entry> := DebugAids(layer, span);
    var head := SpanHead(layer, span, ty, time);
    SpanRecordBody(layer, span, fields, ty, time, record);
    CoreEntriesOrder(layer, message, span.level, time);
    AidKeys(layer, span);
    forall k | |core| <= k < |record| ensures record[k].0 !in BunyanRequiredFields {
      if k < |head| {
        assert record[k] == head[k] == aids[k - |core|];
      }
    }
    forall i, j | 0 <= i < j < |core| ensures record[i].0 != record[j].0 {
      assert record[i] == head[i] == core[i] && record[j] == head[j] == core[j];
    }
  }

  /**
   * After its head, an event record holds only default, event or current-span
   * fields, never a required key and never a skipped one; a `message` key there
   * can only have come from the current span.
   */
  lemma EventRecordBody(layer: BunyanFormattingLayer, event: Metadata, values: Values,
                        current: Option<CurrentSpan>, time: Option<string>, record: seq<Entry>)
    requires IsEventRecord(layer, event, values, current, time, record)
    ensures var head := EventHead(layer, event, values, current, time);
      && |head| <= |record| && record[..|head|] == head
      && forall i :: |head| <= i < |record| ==>
        && record[i].0 !in BunyanRequiredFields
        && record[i].0 !in layer.skipFields
        && (record[i].0 in layer.defaultFields || record[i].0 in values || record[i].0 in CurrentFields(current))
        && (record[i].0 == EventMessageField ==> EventMessageField in CurrentFields(current))
  {
    var head := EventHead(layer, event, values, current, time);
    var reserved := BunyanRequiredFields + {EventMessageField} + layer.skipFields;
    var spanFields := CurrentFields(current);
    Layout3Head(record, head, layer.defaultFields, reserved, values, reserved,
                spanFields, BunyanRequiredFields + layer.skipFields);
    forall i | |head| <= i < |record|
      ensures record[i].0 !in BunyanRequiredFields && record[i].0 !in layer.skipFields
      ensures record[i].0 in layer.defaultFields || record[i].0 in values || record[i].0 in spanFields
      ensures record[i].0 == EventMessageField ==> EventMessageField in spanFields
    {
      Layout3Entry(record, head, layer.defaultFields, reserved, values, reserved,
                   spanFields, BunyanRequiredFields + layer.skipFields, i);
    }
  }

  /** A skipped field never appears in an event record, wherever its value came from. */
  lemma EventRecordOmitsSkipped(layer: BunyanFormattingLayer, event: Metadata, values: Values,
                                current: Option<CurrentSpan>, time: Option<string>, record: seq<Entry>, key: string)
    requires layer.Valid()
    requires IsEventRecord(layer, event, values, current, time, record)
    requires key in layer.skipFields
    ensures key !in KeySet(record)
  {
    var head := EventHead(layer, event, values, current, time);
    EventRecordBody(layer, event, values, current, time, record);
    HeadKeysNotSkipped(layer, FormatEventMessage(CurrentName(current), event.target, values),
                       event.level, time, event, key);
    forall i | 0 <= i < |record| ensures record[i].0 != key {
      if i < |head| {
        assert record[i] == record[..|head|][i];
        assert head[i].0 in KeySet(head);
      }
    }
  }

  /**
   * Every default field and event field other than `message`, and every field of
   * the current span, that is neither required nor skipped appears in an event
   * record with its value.
   */
  lemma EventRecordCarries(layer: BunyanFormattingLayer, event: Metadata, values: Values,
                           current: Option<CurrentSpan>, time: Option<string>, record: seq<Entry>, key: string)
    requires IsEventRecord(layer, event, values, current, time, record)
    requires key !in BunyanRequiredFields && key !in layer.skipFields
    ensures key != EventMessageField && key in layer.defaultFields ==> (key, layer.defaultFields[key]) in record
    ensures key != EventMessageField && key in values ==> (key, values[key]) in record
    ensures key in CurrentFields(current) ==> (key, CurrentFields(current)[key]) in record
  {
    var reserved := BunyanRequiredFields + {EventMessageField} + layer.skipFields;
    Layout3Has(record, EventHead(layer, event, values, current, time), layer.defaultFields, reserved,
               values, reserved, CurrentFields(current), BunyanRequiredFields + layer.skipFields, key);
  }

  /**
   * The keys of a span record, exactly: the core keys (`hostname` only when one is
   * configured, `time` only when it was formatted), the debugging aids that are
   * not skipped, and the default and stored fields that are neither required nor
   * skipped.
   */
  lemma SpanRecordKeys(layer: BunyanFormattingLayer, span: Metadata, fields: Values,
                       ty: RecordType, time: Option<string>, record: seq<Entry>)
    requires IsSpanRecord(layer, span, fields, ty, time, record)
    ensures var reserved := BunyanRequiredFields + layer.skipFields;
      KeySet(record) == CoreKeySet(layer.hostname.Some?, time.Some?) + (DebugAidKeys - layer.skipFields)
                        + (layer.defaultFields.Keys - reserved) + (fields.Keys - reserved)
  {
    var message := FormatSpanContext(span.name, ty);
    var reserved := BunyanRequiredFields + layer.skipFields;
    Layout2Keys(record, SpanHead(layer, span, ty, time), layer.defaultFields, reserved, fields, reserved);
    KeySetConcat(CoreEntries(layer, message, span.level, time), DebugAids(layer, span));
    CoreEntriesKeys(layer, message, span.level, time);
    DebugAidsKeys(layer, span);
  }

  /**
   * The keys of an event record, exactly: the core keys, the debugging aids that
   * are not skipped, the default and event fields that are neither required,
   * skipped nor `message`, and the current span's fields that are neither
   * required nor skipped.
   */
  lemma EventRecordKeys(layer: BunyanFormattingLayer, event: Metadata, values: Values,
                        current: Option<CurrentSpan>, time: Option<string>, record: seq<Entry>)
    requires IsEventRecord(layer, event, values, current, time, record)
    ensures var reserved := BunyanRequiredFields + {EventMessageField} + layer.skipFields;
      KeySet(record) == CoreKeySet(layer.hostname.Some?, time.Some?) + (DebugAidKeys - layer.skipFields)
                        + (layer.defaultFields.Keys - reserved) + (values.Keys - reserved)
                        + (CurrentFields(current).Keys - (BunyanRequiredFields + layer.skipFields))
  {
    var message := FormatEventMessage(CurrentName(current), event.target, values);
    var reserved := BunyanRequiredFields + {EventMessageField} + layer.skipFields;
    Layout3Keys(record, EventHead(layer, event, values, current, time), layer.defaultFields, reserved,
                values, reserved, CurrentFields(current), BunyanRequiredFields + layer.skipFields);
    KeySetConcat(CoreEntries(layer, message, event.level, time), DebugAids(layer, event));
    CoreEntriesKeys(layer, message, event.level, time);
    DebugAidsKeys(layer, event);
  }

  // --------------------------------------------------------- the msg entry

  /** A record's `msg` entry holds `message`; it is the third entry and no other entry is a `msg`. */
  predicate MessageOnce(record: seq<Entry>, message: string)
  {
    && |record| > 2 && record[2] == (MessageKey, String(message))
    && forall i :: 0 <= i < |record| && record[i].0 == MessageKey ==> i == 2
  }

  /**
   * A span record's one `msg` is the span context, so it ends in "END]" exactly
   * when the record is the span closing.
   */
  lemma SpanRecordMessage(layer: BunyanFormattingLayer, span: Metadata, fields: Values,
                          ty: RecordType, time: Option<string>, record: seq<Entry>)
    requires IsSpanRecord(layer, span, fields, ty, time, record)
    ensures MessageOnce(record, FormatSpanContext(span.name, ty))
    ensures EndsWith(record[2].1.s, "END]") <==> ty == ExitSpan
  {
    var message := FormatSpanContext(span.name, ty);
    var core := CoreEntries(layer, message, span.level, time);
    var head := SpanHead(layer, span, ty, time);
    SpanRecordBody(layer, span, fields, ty, time, record);
    assert record[2] == head[2] == core[2];
    SpanRecordRequiredOnce(layer, span, fields, ty, time, record);
    forall i | 0 <= i < |record| && record[i].0 == MessageKey
      ensures i == 2
    {
    }
    SpanContextEndsWithEnd(span.name, ty);
  }

  /** A required key occurs at most once in an event record, among its core fields. */
  lemma EventRecordRequiredOnce(layer: BunyanFormattingLayer, event: Metadata, values: Values,
                                current: Option<CurrentSpan>, time: Option<string>, record: seq<Entry>)
    requires IsEventRecord(layer, event, values, current, time, record)
    ensures forall i, j :: 0 <= i < j < |record| && record[i].0 in BunyanRequiredFields ==>
      record[i].0 != record[j].0
  {
    var message := FormatEventMessage(CurrentName(current), event.target, values);
    var core: seq<Entry> := CoreEntries(layer, message, event.level, time);
    var aids: seq<Entry> := DebugAids(layer, event);
    var head := EventHead(layer, event, values, current, time);
    EventRecordBody(layer, event, values, current, time, record);
    CoreEntriesOrder(layer, message, event.level, time);
    AidKeys(layer, event);
    forall k | |core| <= k < |record| ensures record[k].0 !in BunyanRequiredFields {
      if k < |head| {
        assert record[k] == head[k] == aids[k - |core|];
      }
    }
    forall i, j | 0 <= i < j < |core| ensures record[i].0 != record[j].0 {
      assert record[i] == head[i] == core[i] && record[j] == head[j] == core[j];
    }
  }

  /** An event record's one `msg` is the event's message. */
  lemma EventRecordMessage(layer: BunyanFormattingLayer, event: Metadata, values: Values,
                           current: Option<CurrentSpan>, time: Option<string>, record: seq<Entry>)
    requires IsEventRecord(layer, event, values, current, time, record)
    ensures MessageOnce(record, FormatEventMessage(CurrentName(current), event.target, values))
  {
    var message := FormatEventMessage(CurrentName(current), event.target, values);
    var core := CoreEntries(layer, message, event.level, time);
    var head := EventHead(layer, event, values, current, time);
    EventRecordBody(layer, event, values, current, time, record);
    assert record[2] == head[2] == core[2];
    EventRecordRequiredOnce(layer, event, values, current, time, record);
    forall i | 0 <= i < |record| && record[i].0 == MessageKey
      ensures i == 2
    {
    }
  }
}
