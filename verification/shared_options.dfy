/**
 The options object of an operation is shared by every call it ever serves (internal/server/concern_tool.go:320-346).
 Here objects are on the heap, as maps are in the source, so that sharing and copying are visible.
 */
module SharedOptions {
  import opened JsonValue
  import opened DispatchParams

  datatype Entry = Value(json: Json) | Nested(inner: JsonObject)

  class JsonObject {
    var entries: map<string, Entry>

    constructor ()
      ensures entries == map[]
    {
      entries := map[];
    }
  }

  function Inner(o: JsonObject): set<JsonObject>
    reads o
  {
    set k | k in o.entries && o.entries[k].Nested? :: o.entries[k].inner
  }

  // Objects are nested no deeper than options declare them: an object of values and of objects of values.
  predicate IsFlat(o: JsonObject)
    reads o
  {
    forall k | k in o.entries :: o.entries[k].Value?
  }

  predicate IsOptions(o: JsonObject)
    reads o, Inner(o)
  {
    forall k | k in o.entries && o.entries[k].Nested? :: IsFlat(o.entries[k].inner)
  }

  function FlatValue(o: JsonObject): map<string, Json>
    requires IsFlat(o)
    reads o
  {
    map k | k in o.entries :: o.entries[k].json
  }

  /** What an object says at this moment. */
  function ValueOf(o: JsonObject): map<string, Json>
    requires IsOptions(o)
    reads o, Inner(o)
  {
    map k | k in o.entries ::
      if o.entries[k].Nested? then Obj(FlatValue(o.entries[k].inner)) else o.entries[k].json
  }

  method CopyEntries(from: map<string, Entry>) returns (copy: JsonObject)
    ensures fresh(copy) && copy.entries == from
  {
    copy := new JsonObject();
    var left := from.Keys;
    while left != {}
      invariant left <= from.Keys
      invariant copy.entries == map k | k in from && k !in left :: from[k]
      decreases |left|
    {
      var k :| k in left;
      left := left - {k};
      copy.entries := copy.entries[k := from[k]];
    }
  }

  /** The entries of the query-options object, if the options have one. */
  function DeclaredQueryOptions(o: JsonObject): map<string, Entry>
    reads o, Inner(o)
  {
    if "query-options" !in o.entries then map[]
    else
      match o.entries["query-options"]
      case Nested(inner) => inner.entries
      case Value(Obj(fields)) => map k | k in fields :: Value(fields[k])
      case _ => map[]
  }

  /** withCallerLimit: a new object that says what the options say, with this limit inside query-options. Nothing that
      existed before is changed, so the next caller starts from the options as they were declared. */
  method WithCallerLimit(options: JsonObject, limit: int) returns (merged: JsonObject)
    requires IsOptions(options)
    ensures fresh(merged) && IsOptions(merged) && ValueOf(merged) == WithLimit(ValueOf(options), limit)
    ensures "query-options" in merged.entries && merged.entries["query-options"].Nested?
    ensures fresh(merged.entries["query-options"].inner)
  {
    merged := CopyEntries(options.entries);
    var queryOptions := CopyEntries(DeclaredQueryOptions(options));
    queryOptions.entries := queryOptions.entries["limit" := Value(Number(limit as real))];
    merged.entries := merged.entries["query-options" := Nested(queryOptions)];
    assert FlatValue(queryOptions) == QueryOptions(ValueOf(options))["limit" := Number(limit as real)];
  }

  /** Any sequence of calls: each gets the declared options with its own limit, as if it were the only one. */
  method ServeAll(options: JsonObject, limits: seq<int>) returns (sent: seq<map<string, Json>>)
    requires IsOptions(options)
    ensures |sent| == |limits|
    ensures forall i | 0 <= i < |limits| :: sent[i] == WithLimit(ValueOf(options), EffectiveLimit(limits[i]))
  {
    sent := [];
    for i := 0 to |limits|
      invariant |sent| == i
      invariant forall j | 0 <= j < i :: sent[j] == WithLimit(ValueOf(options), EffectiveLimit(limits[j]))
    {
      var merged := WithCallerLimit(options, EffectiveLimit(limits[i]));
      sent := sent + [ValueOf(merged)];
    }
  }
}
