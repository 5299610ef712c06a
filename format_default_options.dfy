/** `formatDefaultOptions`: keeps every key of the caller's options and sets
    `defaultPagination` to `{limit: 20, offset: 0}` overridden by whatever the
    caller's own `defaultPagination` spreads into. */
module DefaultOptions {
  import opened Decimal

  /** A JavaScript value as it can appear in an options object
      (`undefined` is a key that is absent). */
  datatype Value =
    | Null
    | Bool(b: bool)
    | Num(n: int)
    | Str(s: string)
    | Arr(items: seq<Value>)
    | Obj(fields: map<string, Value>)

  type Options = map<string, Value>

  const PaginationKey := "defaultPagination"
  const PaginationDefaults: map<string, Value> := map["limit" := Num(20), "offset" := Num(0)]

  /** JavaScript truthiness (NaN is not modelled). */
  predicate Truthy(v: Value) {
    match v
    case Null => false
    case Bool(b) => b
    case Num(n) => n != 0
    case Str(s) => s != ""
    case Arr(_) => true
    case Obj(_) => true
  }

  /** Elements keyed by their decimal index, as spreading a sequence gives. */
  function IndexedEntries(items: seq<Value>): (m: map<string, Value>)
    ensures forall i: nat :: i < |items| ==> ToDecimal(i) in m && m[ToDecimal(i)] == items[i]
    ensures forall k :: k in m ==> exists i: nat :: i < |items| && k == ToDecimal(i)
  {
    if items == [] then map[]
    else
      var n := |items| - 1;
      var m := IndexedEntries(items[..n])[ToDecimal(n) := items[n]];
      assert forall i: nat :: i < n ==> ToDecimal(i) != ToDecimal(n) by {
        forall i: nat | i < n ensures ToDecimal(i) != ToDecimal(n) {
          DecimalRoundTrip(i);
          DecimalRoundTrip(n);
        }
      }
      m
  }

  /** The one-character strings a string spreads into. */
  function Characters(s: string): (cs: seq<Value>)
    ensures |cs| == |s| && forall i :: 0 <= i < |s| ==> cs[i] == Str([s[i]])
  {
    seq(|s|, i requires 0 <= i < |s| => Str([s[i]]))
  }

  /** The own enumerable properties that `...v` spreads into an object
      literal: an object's fields, an array's or a string's elements keyed by
      their decimal index, and nothing for other values. */
  function SpreadEntries(v: Value): (m: map<string, Value>)
    ensures v.Obj? ==> m == v.fields
    ensures v.Arr? ==> m == IndexedEntries(v.items)
    ensures v.Str? ==> m == IndexedEntries(Characters(v.s))
    ensures (v.Null? || v.Bool? || v.Num?) ==> m == map[]
  {
    match v
    case Obj(fields) => fields
    case Arr(items) => IndexedEntries(items)
    case Str(s) => IndexedEntries(Characters(s))
    case _ => map[]
  }

  /** The fields `...(options.defaultPagination || {})` contributes. */
  function PaginationOverrides(options: Options): map<string, Value> {
    if PaginationKey in options && Truthy(options[PaginationKey])
    then SpreadEntries(options[PaginationKey])
    else map[]
  }

  function FormatDefaultOptions(options: Options): (r: Options)
    ensures r.Keys == options.Keys + {PaginationKey}
    ensures forall k :: k in options && k != PaginationKey ==> r[k] == options[k]
    ensures r[PaginationKey].Obj?
    ensures
      var page, overrides := r[PaginationKey].fields, PaginationOverrides(options);
      && page.Keys == PaginationDefaults.Keys + overrides.Keys
      && (forall k :: k in overrides ==> page[k] == overrides[k])
      && ("limit" !in overrides ==> page["limit"] == Num(20))
      && ("offset" !in overrides ==> page["offset"] == Num(0))
  {
    options[PaginationKey := Obj(PaginationDefaults + PaginationOverrides(options))]
  }

  /** Without a usable `defaultPagination` the defaults are used as they are. */
  lemma DefaultsWhenAbsent(options: Options)
    requires PaginationKey !in options || !Truthy(options[PaginationKey])
    ensures FormatDefaultOptions(options)[PaginationKey] == Obj(map["limit" := Num(20), "offset" := Num(0)])
  {
  }

  /** Overriding only the limit keeps the default offset. */
  lemma LimitOnlyOverride(options: Options, limit: Value)
    requires PaginationKey in options && options[PaginationKey] == Obj(map["limit" := limit])
    ensures FormatDefaultOptions(options)[PaginationKey] == Obj(map["limit" := limit, "offset" := Num(0)])
  {
  }

  /** Formatting already formatted options changes nothing. */
  lemma {:induction false} FormatIdempotent(options: Options)
    ensures FormatDefaultOptions(FormatDefaultOptions(options)) == FormatDefaultOptions(options)
  {
    var once := FormatDefaultOptions(options);
    var page := PaginationDefaults + PaginationOverrides(options);
    assert once[PaginationKey] == Obj(page);
    assert PaginationOverrides(once) == page;
    assert PaginationDefaults + page == page;
  }
}
