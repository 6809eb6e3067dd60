/**
 * `JsonStorageFilter`: a predicate on span names and one on field names, meant to
 * decide which of a parent's fields a child span inherits. The crate root does not
 * declare this module, so nothing in the layers consults it.
 */
module StorageFilter {
  import opened Wrappers

  /** Whether the listed fields are the only ones let through, or the only ones held back. */
  datatype FilteringMode = Include | Exclude

  /** A filter on the fields of every span (`spanName` None) or of the spans with one name. */
  datatype JsonStorageFilter = JsonStorageFilter(spanName: Option<string>, fields: set<string>, mode: FilteringMode)

  /** Whether the filter applies to a span with this name. */
  predicate FilterSpan(filter: JsonStorageFilter, name: string)
  {
    match filter.spanName
    case Some(spanName) => name == spanName
    case None => true
  }

  /** Whether the filter lets a field with this name through. */
  predicate FilterField(filter: JsonStorageFilter, name: string)
  {
    match filter.mode
    case Include => name in filter.fields
    case Exclude => name !in filter.fields
  }

  /** `JsonStorageFilter::new`: a filter without a span name, which applies to every span. */
  function New(fields: set<string>, mode: FilteringMode): (filter: JsonStorageFilter)
    ensures filter.fields == fields && filter.mode == mode
    ensures forall name :: FilterSpan(filter, name)
  {
    JsonStorageFilter(None, fields, mode)
  }

  /** `JsonStorageFilter::for_span`: a filter that applies exactly to the spans named `spanName`. */
  function ForSpan(spanName: string, fields: set<string>, mode: FilteringMode): (filter: JsonStorageFilter)
    ensures filter.fields == fields && filter.mode == mode
    ensures forall name :: FilterSpan(filter, name) <==> name == spanName
  {
    JsonStorageFilter(Some(spanName), fields, mode)
  }

  /**
   * In `Include` mode a field passes exactly when it is listed, in `Exclude` mode
   * exactly when it is not.
   */
  lemma FilterFieldByMode(filter: JsonStorageFilter, name: string)
    ensures filter.mode.Include? ==> (FilterField(filter, name) <==> name in filter.fields)
    ensures filter.mode.Exclude? ==> (FilterField(filter, name) <==> name !in filter.fields)
  {
  }

  /** For the same fields, the two modes give opposite answers on every field. */
  lemma ModesComplementary(spanName: Option<string>, fields: set<string>, name: string)
    ensures FilterField(JsonStorageFilter(spanName, fields, Include), name)
        != FilterField(JsonStorageFilter(spanName, fields, Exclude), name)
  {
  }

  /** Which spans a filter applies to depends on its span name alone, not on its fields or mode. */
  lemma SpanMatchIgnoresFields(filter: JsonStorageFilter, name: string)
    ensures FilterSpan(filter, name) == FilterSpan(filter.(fields := {}, mode := Include), name)
  {
  }
}
