/**
 * The field store (`JsonStorageLayer`): for every span, an owned map from field
 * name to JSON value, inherited from the parent span by copy when the span is
 * created, and the instant at which the span was first entered.
 */
module StorageLayer {
  import opened Wrappers
  import opened Json
  import opened Text

  /** A span identity as the registry hands it out (tracing's non-zero `u64` id). */
  type SpanId = x: int | 0 < x < 0x1_0000_0000_0000_0000 witness 1

  /**
   * A field value as tracing dispatches it to a visitor. Every value that is not
   * an `i64`, a `u64`, a `bool` or a `&str` (floats, errors, formatted
   * arguments, ...) reaches `record_debug`; `DebugValue` carries the text that
   * `format!("{:?}", value)` renders for it.
   */
  datatype FieldValue =
    | I64Value(i: I64)
    | U64Value(u: U64)
    | BoolValue(b: bool)
    | StrValue(s: string)
    | DebugValue(rendered: string)

  /** A named field, as `Attributes::record` and `Record::record` hand them over. */
  type Field = (string, FieldValue)

  /** The contents of one `JsonStorage`. */
  type Values = map<string, Json>

  /** Prefix of the fields that `tracing-log` adds for metadata already handled. */
  const LogPrefix: string := "log."
  /** Prefix of a raw identifier used as a field name. */
  const RawPrefix: string := "r#"
  /** The key under which the span's duration is stored when it closes. */
  const ElapsedKey: string := "elapsed_milliseconds"

  /** The key a visited field is stored under, or None when it is dropped. */
  function StoredKey(name: string, v: FieldValue): Option<string>
  {
    if !v.DebugValue? then Some(name)
    else if StartsWith(name, LogPrefix) then None
    else if StartsWith(name, RawPrefix) then Some(name[|RawPrefix|..])
    else Some(name)
  }

  /** The JSON value a visited field is stored as. */
  function StoredValue(v: FieldValue): Json
  {
    match v
    case I64Value(i) => Number(i)
    case U64Value(u) => Number(u)
    case BoolValue(b) => Bool(b)
    case StrValue(s) => String(s)
    case DebugValue(rendered) => String(rendered)
  }

  /**
   * The map after the visitor has recorded one field: the field's key is set to
   * its value, replacing any earlier value, and every other key keeps its value.
   */
  function Visit(m: Values, name: string, v: FieldValue): (r: Values)
    ensures StoredKey(name, v).None? ==> r == m
    ensures StoredKey(name, v).Some? ==>
      var key := StoredKey(name, v).value;
      && r.Keys == m.Keys + {key}
      && r[key] == StoredValue(v)
      && forall k :: k in m && k != key ==> r[k] == m[k]
  {
    match StoredKey(name, v)
    case None => m
    case Some(key) => m[key := StoredValue(v)]
  }

  /** The map after the visitor has recorded `fields` in order. */
  function ApplyAll(m: Values, fields: seq<Field>): Values
    decreases |fields|
  {
    if fields == [] then m
    else
      var n := |fields| - 1;
      Visit(ApplyAll(m, fields[..n]), fields[n].0, fields[n].1)
  }

  /** The value one field writes to key `k`, if it writes to it. */
  function WriteOf(f: Field, k: string): seq<Json>
  {
    if StoredKey(f.0, f.1) == Some(k) then [StoredValue(f.1)] else []
  }

  /** The values that `fields` write to key `k`, first write first. */
  function WritesTo(fields: seq<Field>, k: string): seq<Json>
  {
    if fields == [] then [] else WriteOf(fields[0], k) + WritesTo(fields[1..], k)
  }

  lemma {:induction false} WritesToSnoc(fields: seq<Field>, f: Field, k: string)
    ensures WritesTo(fields + [f], k) == WritesTo(fields, k) + WriteOf(f, k)
  {
    if fields == [] {
      assert [f][1..] == [];
    } else {
      assert (fields + [f])[1..] == fields[1..] + [f];
      WritesToSnoc(fields[1..], f, k);
    }
  }

  /**
   * Last write wins: after recording `fields` over `m`, a key holds the last
   * value any field wrote to it, or its value in `m` when no field wrote to it;
   * a key is present exactly when it was present in `m` or some field wrote to it.
   */
  lemma {:induction false} LastWriteWins(m: Values, fields: seq<Field>, k: string)
    ensures var r, w := ApplyAll(m, fields), WritesTo(fields, k);
      && (k in r <==> k in m || w != [])
      && (w != [] ==> r[k] == w[|w| - 1])
      && (w == [] && k in m ==> r[k] == m[k])
    decreases |fields|
  {
    if fields != [] {
      var n := |fields| - 1;
      LastWriteWins(m, fields[..n], k);
      WritesToSnoc(fields[..n], fields[n], k);
      assert fields[..n] + [fields[n]] == fields;
    }
  }

  /**
   * A new span starts from its parent's fields: one that none of its creation
   * fields writes to keeps the parent's value.
   */
  lemma ChildKeepsParentField(storage: map<SpanId, Values>, parent: SpanId, attrs: seq<Field>, k: string)
    requires parent in storage && k in storage[parent] && WritesTo(attrs, k) == []
    ensures var child := ApplyAll(Inherited(storage, Some(parent)), attrs);
      k in child && child[k] == storage[parent][k]
  {
    LastWriteWins(storage[parent], attrs, k);
  }

  /**
   * The milliseconds `on_close` stores: zero for a span that was never entered,
   * otherwise `Instant::elapsed().as_millis()` (whole milliseconds, an earlier
   * clock reading counting as no time at all) cast to `u64`, that is, modulo 2^64.
   * Clock readings are nanoseconds.
   */
  function ElapsedMilliseconds(start: Option<nat>, now: nat): (ms: U64)
    ensures start.None? ==> ms == 0
    ensures start.Some? && now <= start.value ==> ms == 0
    ensures start.Some? && start.value <= now && now - start.value < U64Limit * 1_000_000 ==>
      ms * 1_000_000 <= now - start.value < (ms + 1) * 1_000_000
    ensures start.Some? && start.value <= now ==> ((now - start.value) / 1_000_000 - ms) % U64Limit == 0
  {
    match start
    case None => 0
    case Some(s) => (if now <= s then 0 else (now - s) / 1_000_000) % U64Limit
  }

  /** A `JsonStorage`: the visitor that records fields into its map. */
  class JsonStorage {
    var values: Values

    /** `JsonStorage::default()`: an empty bag of fields. */
    constructor Default()
      ensures values == map[]
    {
      values := map[];
    }

    /** An owned copy of another storage's map (`to_owned`). */
    constructor Copy(from: Values)
      ensures values == from
    {
      values := from;
    }

    method RecordI64(name: string, value: I64)
      modifies this
      ensures values == old(values)[name := Number(value)]
    {
      values := values[name := Number(value)];
    }

    method RecordU64(name: string, value: U64)
      modifies this
      ensures values == old(values)[name := Number(value)]
    {
      values := values[name := Number(value)];
    }

    method RecordBool(name: string, value: bool)
      modifies this
      ensures values == old(values)[name := Bool(value)]
    {
      values := values[name := Bool(value)];
    }

    method RecordStr(name: string, value: string)
      modifies this
      ensures values == old(values)[name := String(value)]
    {
      values := values[name := String(value)];
    }

    /** Records the debug rendering of any other value, subject to the name rules. */
    method RecordDebug(name: string, rendered: string)
      modifies this
      ensures StartsWith(name, LogPrefix) ==> values == old(values)
      ensures !StartsWith(name, LogPrefix) && StartsWith(name, RawPrefix) ==>
        values == old(values)[name[2..] := String(rendered)]
      ensures !StartsWith(name, LogPrefix) && !StartsWith(name, RawPrefix) ==>
        values == old(values)[name := String(rendered)]
    {
      if !StartsWith(name, LogPrefix) {
        if StartsWith(name, RawPrefix) {
          values := values[name[2..] := String(rendered)];
        } else {
          values := values[name := String(rendered)];
        }
      }
    }

    /** tracing's dispatch of one field to the `record_*` method for its kind. */
    method Record(field: Field)
      modifies this
      ensures values == Visit(old(values), field.0, field.1)
    {
      match field.1
      case I64Value(i) => RecordI64(field.0, i);
      case U64Value(u) => RecordU64(field.0, u);
      case BoolValue(b) => RecordBool(field.0, b);
      case StrValue(s) => RecordStr(field.0, s);
      case DebugValue(rendered) => RecordDebug(field.0, rendered);
    }

    /** `attrs.record(&mut visitor)`: visits the fields one after the other. */
    method RecordAll(fields: seq<Field>)
      modifies this
      ensures values == ApplyAll(old(values), fields)
    {
      for i := 0 to |fields|
        invariant values == ApplyAll(old(values), fields[..i])
      {
        assert fields[..i + 1][..i] == fields[..i];
        Record(fields[i]);
      }
      assert fields[..|fields|] == fields;
    }
  }

  /** The map a new span starts from: a copy of its parent's, or empty. */
  function Inherited(storage: map<SpanId, Values>, parent: Option<SpanId>): Values
  {
    if parent.Some? && parent.value in storage then storage[parent.value] else map[]
  }

  /**
   * The `JsonStorageLayer` together with the two extensions it keeps on every
   * span: the `JsonStorage` and the `Instant` of the first enter.
   */
  class JsonStorageLayer {
    /** The `JsonStorage` extension of each span that has one. */
    var storage: map<SpanId, Values>
    /** The `Instant` extension of each span that has been entered. */
    var started: map<SpanId, nat>

    constructor ()
      ensures storage == map[] && started == map[]
    {
      storage := map[];
      started := map[];
    }

    /**
     * `new_span`: the new span's map is a copy of its parent's (empty without a
     * parent or when the parent has none) with the creation fields recorded over
     * it; no other span's map changes.
     */
    method NewSpan(id: SpanId, parent: Option<SpanId>, attrs: seq<Field>)
      modifies this
      ensures storage == old(storage)[id := ApplyAll(Inherited(old(storage), parent), attrs)]
      ensures started == old(started)
    {
      var visitor: JsonStorage;
      if parent.Some? && parent.value in storage {
        visitor := new JsonStorage.Copy(storage[parent.value]);
      } else {
        visitor := new JsonStorage.Default();
      }
      visitor.RecordAll(attrs);
      storage := storage[id := visitor.values];
    }

    /** `on_record`: the span must already have its storage; the fields are recorded over it. */
    method OnRecord(id: SpanId, fields: seq<Field>)
      requires id in storage
      modifies this
      ensures storage == old(storage)[id := ApplyAll(old(storage)[id], fields)]
      ensures started == old(started)
    {
      var visitor := new JsonStorage.Copy(storage[id]);
      visitor.RecordAll(fields);
      storage := storage[id := visitor.values];
    }

    /** `on_enter`: remembers the clock reading only on the first enter. */
    method OnEnter(id: SpanId, now: nat)
      modifies this
      ensures storage == old(storage)
      ensures id in old(started) ==> started == old(started)
      ensures id !in old(started) ==> started == old(started)[id := now]
    {
      if id !in started {
        started := started[id := now];
      }
    }

    /** `on_close`: stores the elapsed milliseconds in the span's map, overwriting. */
    method OnClose(id: SpanId, now: nat)
      requires id in storage
      modifies this
      ensures storage == old(storage)[id := old(storage)[id][ElapsedKey :=
        Number(ElapsedMilliseconds(if id in old(started) then Some(old(started)[id]) else None, now))]]
      ensures started == old(started)
    {
      var start := if id in started then Some(started[id]) else None;
      var elapsed := ElapsedMilliseconds(start, now);
      storage := storage[id := storage[id][ElapsedKey := Number(elapsed)]];
    }
  }
}
