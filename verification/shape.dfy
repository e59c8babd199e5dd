/** Bounding and projecting a result, and saying what was withheld (internal/server/concern_tool.go:373-440). */
module Shape {
  import opened DispatchParams
  import opened JsonValue

  // What json.Unmarshal makes of the target's answer.
  datatype Answer = NotJson(text: string) | Decoded(json: Json)

  datatype DispatchOutput = DispatchOutput(
    op: string, count: nat, total: nat, truncated: bool, projected: bool, result: Json)

  /** The object restricted to these fields. */
  function Restricted(obj: map<string, Json>, fields: seq<string>): map<string, Json> {
    map f | f in obj && f in fields :: obj[f]
  }

  function Projected(item: Json, fields: seq<string>): Json {
    if item.Obj? then Obj(Restricted(item.fields, fields)) else item
  }

  /** The item has a field that is not among these. */
  predicate LosesField(item: Json, fields: seq<string>) {
    item.Obj? && exists f :: f in item.fields && f !in fields
  }

  /** Comparing sizes is enough: the restriction is smaller exactly when some field is missing from it. */
  lemma SmallerIff(obj: map<string, Json>, fields: seq<string>)
    ensures |Restricted(obj, fields)| < |obj| <==> LosesField(Obj(obj), fields)
    ensures |Restricted(obj, fields)| <= |obj|
  {
    var kept := Restricted(obj, fields).Keys;
    assert |Restricted(obj, fields)| == |kept| && |obj| == |obj.Keys|;
    Cardinality(kept, obj.Keys);
    assert obj.Keys <= kept <==> !LosesField(Obj(obj), fields);
  }

  lemma {:induction false} Cardinality(a: set<string>, b: set<string>)
    requires a <= b
    ensures |a| <= |b| && (|a| < |b| <==> !(b <= a))
  {
    if a != {} {
      var x :| x in a;
      Cardinality(a - {x}, b - {x});
    }
  }

  lemma OneMoreField(obj: map<string, Json>, fields: seq<string>, i: nat)
    requires i < |fields|
    ensures Restricted(obj, fields[..i + 1]) ==
            if fields[i] in obj then Restricted(obj, fields[..i])[fields[i] := obj[fields[i]]]
            else Restricted(obj, fields[..i])
  {
    assert fields[..i + 1] == fields[..i] + [fields[i]];
  }

  method ProjectFields(item: Json, fields: seq<string>) returns (reduced: Json, dropped: bool)
    ensures reduced == Projected(item, fields)
    ensures if item.Obj? then
              && reduced.Obj? && reduced.fields.Keys == set f | f in item.fields && f in fields
              && forall f | f in reduced.fields :: reduced.fields[f] == item.fields[f]
            else reduced == item
    ensures dropped <==> LosesField(item, fields)
  {
    if !item.Obj? {
      return item, false;
    }
    var obj := item.fields;
    var out := map[];
    for i := 0 to |fields|
      invariant out == Restricted(obj, fields[..i])
    {
      OneMoreField(obj, fields, i);
      if fields[i] in obj {
        out := out[fields[i] := obj[fields[i]]];
      }
    }
    assert fields[..|fields|] == fields;
    SmallerIff(obj, fields);
    return Obj(out), |out| < |obj|;
  }

  /** The items of an answer that decodes into a list; null decodes into an empty one. */
  predicate IsList(answer: Answer) {
    answer.Decoded? && (answer.json.Arr? || answer.json.Null?)
  }

  function Items(answer: Answer): seq<Json>
    requires IsList(answer)
  {
    if answer.json.Arr? then answer.json.items else []
  }

  function Least(a: int, b: int): int {
    if a < b then a else b
  }

  function Returned(result: Json): seq<Json> {
    if result.Arr? then result.items else []
  }

  /** shape: of a list, the first items up to the limit, each reduced to the projected fields unless they are asked
      for in full; the flags say what was lost, and nothing else is. Anything but a list passes through. */
  method ShapeResult(op: string, answer: Answer, limit: int, project: seq<string>, full: bool)
    returns (out: DispatchOutput)
    ensures out.op == op
    ensures !IsList(answer) ==>
              out == DispatchOutput(op, 0, 0, false, false, if answer.Decoded? then answer.json else Str(answer.text))
    ensures IsList(answer) ==>
              var items, n := Items(answer), Least(|Items(answer)|, EffectiveLimit(limit));
              && out.count == |Returned(out.result)| == n && out.total == |items|
              && (out.truncated <==> out.count < out.total)
              && (answer.json.Null? ==> out.result == Null)
              && (forall i | 0 <= i < n ::
                    Returned(out.result)[i] == if project == [] || full then items[i] else Projected(items[i], project))
              && (out.projected <==> project != [] && !full && exists i | 0 <= i < n :: LosesField(items[i], project))
  {
    var bound := EffectiveLimit(limit);
    if !IsList(answer) {
      match answer
      case NotJson(text) => return DispatchOutput(op, 0, 0, false, false, Str(text));
      case Decoded(single) => return DispatchOutput(op, 0, 0, false, false, single);
    }
    var list := Items(answer);
    var total := |list|;
    var truncated := total > bound;
    if truncated {
      list := list[..bound];
    }
    var projected := false;
    if |project| > 0 && !full {
      list, projected := ProjectItems(list, project);
    }
    var result := if answer.json.Null? then Null else Arr(list);
    return DispatchOutput(op, |list|, total, truncated, projected, result);
  }

  /** The loop that rewrites the list item by item. */
  method ProjectItems(items: seq<Json>, project: seq<string>) returns (list: seq<Json>, projected: bool)
    ensures |list| == |items| && forall i | 0 <= i < |items| :: list[i] == Projected(items[i], project)
    ensures projected <==> exists i | 0 <= i < |items| :: LosesField(items[i], project)
  {
    list, projected := items, false;
    for i := 0 to |items|
      invariant |list| == |items|
      invariant forall j | 0 <= j < i :: list[j] == Projected(items[j], project)
      invariant forall j | i <= j < |items| :: list[j] == items[j]
      invariant projected <==> exists j | 0 <= j < i :: LosesField(items[j], project)
    {
      var reduced, dropped := ProjectFields(list[i], project);
      list := list[i := reduced];
      projected := projected || dropped;
    }
  }

  /** A flag that is not set can be relied on: a list answered without flags is the whole list, unreduced. */
  lemma NothingWithheld(items: seq<Json>, returned: seq<Json>, limit: int, project: seq<string>)
    requires |returned| == Least(|items|, EffectiveLimit(limit))
    requires forall i | 0 <= i < |returned| :: returned[i] == Projected(items[i], project)
    requires !(|returned| < |items|) && !exists i | 0 <= i < |returned| :: LosesField(items[i], project)
    ensures returned == items
  {
    forall i | 0 <= i < |returned| ensures returned[i] == items[i] {
      assert !LosesField(items[i], project);
      if items[i].Obj? {
        assert Restricted(items[i].fields, project) == items[i].fields;
      }
    }
  }
}
