/** What the rewrite of boolean `items` schemas (internal/server/discovery_tool.go:120-138) computes, and what it
    leaves. */
module SchemaRewrite {
  import opened JsonValue
  import opened Wrappers

  /** The object that means what a boolean schema means. */
  function BooleanAsObject(b: bool): Json {
    if b then Obj(map[]) else Obj(map["not" := Obj(map[])])
  }

  predicate IsBooleanItems(key: string, j: Json) {
    key == "items" && j.Bool?
  }

  function Rewrite(j: Json): Json
    decreases j, 0
  {
    match j
    case Obj(fields) => Obj(map k | k in fields :: RewriteUnder(k, fields[k]))
    case Arr(items) => Arr(seq(|items|, i requires 0 <= i < |items| => Rewrite(items[i])))
    case _ => j
  }

  function RewriteUnder(key: string, j: Json): Json
    decreases j, 1
  {
    if IsBooleanItems(key, j) then BooleanAsObject(j.value) else Rewrite(j)
  }

  /** The walk enters the object it has just written, and has nothing to do there. */
  lemma WrittenObjectIsFixed(b: bool)
    ensures Rewrite(BooleanAsObject(b)) == BooleanAsObject(b)
  {
  }

  // ----- what is left, and what is changed -----

  /** No boolean stands under an "items" key anywhere in the document. */
  ghost predicate NoBooleanItems(j: Json)
    decreases j
  {
    match j
    case Obj(fields) => forall k | k in fields :: !IsBooleanItems(k, fields[k]) && NoBooleanItems(fields[k])
    case Arr(items) => forall i | 0 <= i < |items| :: NoBooleanItems(items[i])
    case _ => true
  }

  lemma {:induction false} NoneIsLeft(j: Json)
    ensures NoBooleanItems(Rewrite(j))
    decreases j
  {
    match j
    case Obj(fields) =>
      forall k | k in fields
        ensures !IsBooleanItems(k, RewriteUnder(k, fields[k])) && NoBooleanItems(RewriteUnder(k, fields[k]))
      {
        NoneIsLeft(fields[k]);
      }
    case Arr(items) =>
      forall i | 0 <= i < |items| ensures NoBooleanItems(Rewrite(items[i])) {
        NoneIsLeft(items[i]);
      }
    case _ =>
  }

  /** The rewrite changes a document exactly when it has something to rewrite. */
  lemma {:induction false} FixedIff(j: Json)
    ensures Rewrite(j) == j <==> NoBooleanItems(j)
    decreases j
  {
    NoneIsLeft(j);
    if NoBooleanItems(j) {
      match j
      case Obj(fields) =>
        forall k | k in fields ensures RewriteUnder(k, fields[k]) == fields[k] {
          FixedIff(fields[k]);
        }
        assert Rewrite(j).fields == fields;
      case Arr(items) =>
        forall i | 0 <= i < |items| ensures Rewrite(items[i]) == items[i] {
          FixedIff(items[i]);
        }
        assert Rewrite(j).items == items;
      case _ =>
    }
  }

  lemma Idempotent(j: Json)
    ensures Rewrite(Rewrite(j)) == Rewrite(j)
  {
    NoneIsLeft(j);
    FixedIff(Rewrite(j));
  }

  datatype Place = Key(key: string) | Index(index: nat)

  /** The value at a place in a document, if the document has that place. */
  function Lookup(j: Json, path: seq<Place>): Option<Json> {
    if path == [] then Some(j)
    else match path[0]
      case Key(k) => if j.Obj? && k in j.fields then Lookup(j.fields[k], path[1..]) else None
      case Index(i) => if j.Arr? && i < |j.items| then Lookup(j.items[i], path[1..]) else None
  }

  predicate IsAt(j: Json, path: seq<Place>, value: Json) {
    Lookup(j, path) == Some(value)
  }

  predicate UnderItems(path: seq<Place>) {
    path != [] && path[|path| - 1] == Key("items")
  }

  /** Every boolean, number, string and null of the document stays where it is, except the booleans under "items",
      which go; and no scalar appears anywhere else. */
  lemma {:induction false} ScalarsStay(j: Json, path: seq<Place>, scalar: Json)
    requires !scalar.Obj? && !scalar.Arr?
    ensures IsAt(Rewrite(j), path, scalar) <==> IsAt(j, path, scalar) && !(scalar.Bool? && UnderItems(path))
    decreases |path|
  {
    if path != [] {
      var rest := path[1..];
      assert rest != [] ==> rest[|rest| - 1] == path[|path| - 1];
      match path[0]
      case Key(k) =>
        if j.Obj? && k in j.fields {
          ScalarsStay(j.fields[k], rest, scalar);
          if k == "items" && j.fields[k].Bool? {
            NothingInside(j.fields[k].value, rest, scalar);
          }
        }
      case Index(i) =>
        if j.Arr? && i < |j.items| {
          ScalarsStay(j.items[i], rest, scalar);
        }
    }
  }

  lemma NothingInside(b: bool, path: seq<Place>, scalar: Json)
    requires !scalar.Obj? && !scalar.Arr?
    ensures !IsAt(BooleanAsObject(b), path, scalar)
  {
    if path != [] && path[0] == Key("not") {
      assert !IsAt(Obj(map[]), path[1..], scalar);
    }
  }

  /** What stood at a place stands there rewritten, as an "items" value where it was one. */
  lemma {:induction false} PlacesAreRewritten(j: Json, path: seq<Place>)
    requires Lookup(j, path).Some?
    ensures var v := Lookup(j, path).value;
      Lookup(Rewrite(j), path) == Some(if UnderItems(path) then RewriteUnder("items", v) else Rewrite(v))
    decreases |path|
  {
    if path == [] {
    } else {
      var rest := path[1..];
      assert rest != [] ==> rest[|rest| - 1] == path[|path| - 1];
      match path[0]
      case Key(k) =>
        PlacesAreRewritten(j.fields[k], rest);
        assert Rewrite(j).fields[k] == RewriteUnder(k, j.fields[k]);
        assert Lookup(Rewrite(j), path) == Lookup(Rewrite(j).fields[k], rest);
      case Index(i) =>
        PlacesAreRewritten(j.items[i], rest);
        assert Lookup(Rewrite(j), path) == Lookup(Rewrite(j.items[i]), rest);
    }
  }
}
