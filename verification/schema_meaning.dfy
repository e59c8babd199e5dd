/**
 Which instances a schema accepts (JSON Schema 2020-12), and the proof that rewriting boolean `items` does not
 change it. The applicator keywords, which hold schemas, are evaluated; every other keyword is an assertion about
 the instance whose meaning is a parameter; annotations accept everything. `fuel` bounds how many references are
 followed.
 */
module SchemaMeaning {
  import opened JsonValue
  import opened SchemaRewrite
  import opened Wrappers

  // `assertion(keyword, value, instance)`; `matches(pattern, property)`; `defs`: the schema behind each reference.
  datatype Dialect = Dialect(
    assertion: (string, Json, Json) -> bool,
    matches: (string, string) -> bool,
    defs: map<string, Json>)

  datatype Role = OneSchema | SchemaList | SchemaMap | Reference | Annotation | Assertion

  const ONE_SCHEMA := {"items", "contains", "additionalProperties", "propertyNames", "not", "if", "then", "else"}
  const SCHEMA_LIST := {"prefixItems", "allOf", "anyOf", "oneOf"}
  const SCHEMA_MAP := {"properties", "patternProperties", "dependentSchemas"}
  const ANNOTATIONS := {
    "$defs", "$schema", "$id", "$comment", "title", "description", "default", "examples", "deprecated", "readOnly",
    "writeOnly", "minContains", "maxContains"}

  function RoleOf(keyword: string): Role {
    if keyword in ONE_SCHEMA then OneSchema
    else if keyword in SCHEMA_LIST then SchemaList
    else if keyword in SCHEMA_MAP then SchemaMap
    else if keyword == "$ref" then Reference
    else if keyword in ANNOTATIONS then Annotation
    else Assertion
  }

  // What a keyword reads of its siblings without evaluating them.
  datatype Siblings = Siblings(
    prefix: nat, named: set<string>, patterns: set<string>, atLeast: Option<real>, atMost: Option<real>)

  function SiblingsOf(s: Json): Siblings
    requires s.Obj?
  {
    Siblings(
      if "prefixItems" in s.fields && s.fields["prefixItems"].Arr? then |s.fields["prefixItems"].items| else 0,
      NamesUnder(s, "properties"), NamesUnder(s, "patternProperties"),
      NumberUnder(s, "minContains"), NumberUnder(s, "maxContains"))
  }

  function NamesUnder(s: Json, k: string): set<string>
    requires s.Obj?
  {
    if k in s.fields && s.fields[k].Obj? then s.fields[k].fields.Keys else {}
  }

  function NumberUnder(s: Json, k: string): Option<real>
    requires s.Obj?
  {
    if k in s.fields && s.fields[k].Number? then Some(s.fields[k].number) else None
  }

  // ----- what an applicator makes of the verdicts of the schemas it holds -----

  ghost predicate OneHolds(
    k: string, f: Json -> bool, thenHolds: bool, elseHolds: bool, d: Dialect, siblings: Siblings, x: Json)
  {
    if k == "items" then x.Arr? ==> forall i | siblings.prefix <= i < |x.items| :: f(x.items[i])
    else if k == "contains" then x.Arr? ==> EnoughContained(f, siblings, x.items)
    else if k == "additionalProperties" then
      x.Obj? ==> forall p | p in x.fields && IsAdditional(d, siblings, p) :: f(x.fields[p])
    else if k == "propertyNames" then x.Obj? ==> forall p | p in x.fields :: f(Str(p))
    else if k == "not" then !f(x)
    else if k == "if" then if f(x) then thenHolds else elseHolds
    else true // "then" and "else" speak through "if"
  }

  ghost predicate EnoughContained(f: Json -> bool, siblings: Siblings, items: seq<Json>) {
    var n := |set i | 0 <= i < |items| && f(items[i])| as real;
    && (if siblings.atLeast.Some? then siblings.atLeast.value else 1.0) <= n
    && (siblings.atMost.Some? ==> n <= siblings.atMost.value)
  }

  ghost predicate IsAdditional(d: Dialect, siblings: Siblings, p: string) {
    p !in siblings.named && forall r | r in siblings.patterns :: !d.matches(r, p)
  }

  ghost predicate ListHolds(k: string, n: nat, f: (int, Json) -> bool, x: Json) {
    if k == "prefixItems" then x.Arr? ==> forall i | 0 <= i < n && i < |x.items| :: f(i, x.items[i])
    else if k == "allOf" then forall i | 0 <= i < n :: f(i, x)
    else if k == "anyOf" then exists i | 0 <= i < n :: f(i, x)
    else exists i | 0 <= i < n :: f(i, x) && forall j | 0 <= j < n && j != i :: !f(j, x)
  }

  ghost predicate MapHolds(k: string, names: set<string>, f: (string, Json) -> bool, d: Dialect, x: Json) {
    x.Obj? ==>
      if k == "properties" then forall p | p in names && p in x.fields :: f(p, x.fields[p])
      else if k == "patternProperties" then
        forall r, p | r in names && p in x.fields && d.matches(r, p) :: f(r, x.fields[p])
      else forall p | p in names && p in x.fields :: f(p, x)
  }

  // ----- acceptance -----

  ghost predicate Accepts(fuel: nat, d: Dialect, s: Json, x: Json)
    decreases fuel, s, 1
  {
    match s
    case Bool(b) => b
    case Obj(fields) => forall k | k in fields :: Holds(fuel, d, s, k, x)
    case _ => false
  }

  /** What keyword `k` of schema `s` says about the instance. */
  ghost predicate Holds(fuel: nat, d: Dialect, s: Json, k: string, x: Json)
    requires s.Obj? && k in s.fields
    decreases fuel, s, 0
  {
    var v := s.fields[k];
    match RoleOf(k)
    case OneSchema =>
      OneHolds(k, y => Accepts(fuel, d, v, y),
        "then" in s.fields ==> Accepts(fuel, d, s.fields["then"], x),
        "else" in s.fields ==> Accepts(fuel, d, s.fields["else"], x), d, SiblingsOf(s), x)
    case SchemaList =>
      v.Arr? ==> ListHolds(k, |v.items|, (i, y) => 0 <= i < |v.items| && Accepts(fuel, d, v.items[i], y), x)
    case SchemaMap =>
      v.Obj? ==> MapHolds(k, v.fields.Keys, (p, y) => p in v.fields && Accepts(fuel, d, v.fields[p], y), d, x)
    case Reference =>
      fuel > 0 && v.Str? && v.text in d.defs && Accepts(fuel - 1, d, d.defs[v.text], x)
    case Annotation => true
    case Assertion => d.assertion(k, v, x)
  }

  // ----- the documents the rewrite is meant for -----

  /** No data position, which is the value of an assertion such as const or enum, holds a boolean under "items". */
  ghost predicate DataIsClean(s: Json)
    decreases s, 1
  {
    s.Obj? ==> forall k | k in s.fields :: DataIsCleanUnder(k, s.fields[k])
  }

  ghost predicate DataIsCleanUnder(k: string, v: Json)
    decreases v, 2
  {
    match RoleOf(k)
    case OneSchema => DataIsClean(v)
    case SchemaList => v.Arr? ==> forall i | 0 <= i < |v.items| :: DataIsClean(v.items[i])
    case SchemaMap => v.Obj? ==> forall p | p in v.fields :: DataIsClean(v.fields[p])
    case Reference => true
    case Annotation => true
    case Assertion => NoBooleanItems(v)
  }

  /** `d1` is `d` with the schema behind each reference rewritten too, as an "items" value where it is one. */
  ghost predicate Rewrites(d: Dialect, d1: Dialect) {
    && d1.assertion == d.assertion && d1.matches == d.matches && d1.defs.Keys == d.defs.Keys
    && forall n | n in d.defs ::
         DataIsClean(d.defs[n]) && d1.defs[n] in {Rewrite(d.defs[n]), RewriteUnder("items", d.defs[n])}
  }

  // ----- the proof -----

  lemma SiblingsStay(s: Json)
    requires s.Obj?
    ensures SiblingsOf(Rewrite(s)) == SiblingsOf(s)
  {
    forall k | k in {"prefixItems", "properties", "patternProperties", "minContains", "maxContains"} && k in s.fields
      ensures Rewrite(s).fields[k] == Rewrite(s.fields[k])
    {
      assert |k| > |"items"|;
    }
    assert NamesUnder(Rewrite(s), "properties") == NamesUnder(s, "properties");
    assert NamesUnder(Rewrite(s), "patternProperties") == NamesUnder(s, "patternProperties");
  }

  lemma ObjectMeansBoolean(fuel: nat, d: Dialect, b: bool, x: Json)
    ensures Accepts(fuel, d, BooleanAsObject(b), x) == b
  {
    if !b {
      var s := BooleanAsObject(b);
      assert Accepts(fuel, d, Obj(map[]), x);
      assert s.fields["not"] == Obj(map[]) && RoleOf("not") == OneSchema;
      assert !Holds(fuel, d, s, "not", x);
    }
  }

  lemma OneAgrees(k: string, f: Json -> bool, g: Json -> bool, t: bool, e: bool, d: Dialect, d1: Dialect,
                  siblings: Siblings, x: Json)
    requires d1.matches == d.matches && forall y :: f(y) == g(y)
    ensures OneHolds(k, f, t, e, d1, siblings, x) == OneHolds(k, g, t, e, d, siblings, x)
  {
    if k == "contains" && x.Arr? {
      assert (set i | 0 <= i < |x.items| && f(x.items[i])) == (set i | 0 <= i < |x.items| && g(x.items[i]));
    }
    if k == "additionalProperties" && x.Obj? {
      assert forall p :: IsAdditional(d1, siblings, p) == IsAdditional(d, siblings, p);
    }
  }

  lemma ListAgrees(k: string, n: nat, f: (int, Json) -> bool, g: (int, Json) -> bool, x: Json)
    requires forall i, y :: f(i, y) == g(i, y)
    ensures ListHolds(k, n, f, x) == ListHolds(k, n, g, x)
  {
    if k != "prefixItems" && k != "allOf" && k != "anyOf" {
      forall i | 0 <= i < n
        ensures (f(i, x) && forall j | 0 <= j < n && j != i :: !f(j, x)) ==
                (g(i, x) && forall j | 0 <= j < n && j != i :: !g(j, x))
      {
      }
    }
  }

  /** The rewrite preserves which instances a schema accepts, and so does it as the value of any keyword. */
  lemma {:induction false} AcceptanceIsPreserved(fuel: nat, d: Dialect, d1: Dialect, key: string, s: Json, x: Json)
    requires Rewrites(d, d1) && DataIsClean(s)
    ensures Accepts(fuel, d1, Rewrite(s), x) == Accepts(fuel, d, s, x)
    ensures Accepts(fuel, d1, RewriteUnder(key, s), x) == Accepts(fuel, d, s, x)
    decreases fuel, s, 1
  {
    if s.Bool? {
      ObjectMeansBoolean(fuel, d1, s.value, x);
    }
    if s.Obj? {
      forall k | k in s.fields
        ensures Holds(fuel, d1, Rewrite(s), k, x) == Holds(fuel, d, s, k, x)
      {
        KeywordIsPreserved(fuel, d, d1, s, k, x);
      }
    }
  }

  lemma {:induction false} KeywordIsPreserved(fuel: nat, d: Dialect, d1: Dialect, s: Json, k: string, x: Json)
    requires Rewrites(d, d1) && s.Obj? && DataIsClean(s) && k in s.fields
    ensures Holds(fuel, d1, Rewrite(s), k, x) == Holds(fuel, d, s, k, x)
    decreases fuel, s, 0
  {
    var v := s.fields[k];
    assert DataIsCleanUnder(k, v);
    assert RoleOf(k) == OneSchema || Rewrite(s).fields[k] == Rewrite(v);
    match RoleOf(k)
    case OneSchema => OneIsPreserved(fuel, d, d1, s, k, x);
    case SchemaList => ListIsPreserved(fuel, d, d1, s, k, x);
    case SchemaMap => MapIsPreserved(fuel, d, d1, s, k, x);
    case Reference =>
      if fuel > 0 && v.Str? && v.text in d.defs {
        AcceptanceIsPreserved(fuel - 1, d, d1, "items", d.defs[v.text], x);
      }
    case Annotation =>
    case Assertion => FixedIff(v);
  }

  lemma {:induction false} OneIsPreserved(fuel: nat, d: Dialect, d1: Dialect, s: Json, k: string, x: Json)
    requires Rewrites(d, d1) && s.Obj? && DataIsClean(s) && k in s.fields && RoleOf(k) == OneSchema
    ensures Holds(fuel, d1, Rewrite(s), k, x) == Holds(fuel, d, s, k, x)
    decreases fuel, s, 0, 0
  {
    var v, v1 := s.fields[k], RewriteUnder(k, s.fields[k]);
    assert DataIsCleanUnder(k, v);
    forall y ensures Accepts(fuel, d1, v1, y) == Accepts(fuel, d, v, y) {
      AcceptanceIsPreserved(fuel, d, d1, k, v, y);
    }
    forall b | b in {"then", "else"} && b in s.fields
      ensures Accepts(fuel, d1, Rewrite(s).fields[b], x) == Accepts(fuel, d, s.fields[b], x)
    {
      assert DataIsCleanUnder(b, s.fields[b]) && RoleOf(b) == OneSchema;
      AcceptanceIsPreserved(fuel, d, d1, b, s.fields[b], x);
    }
    SiblingsStay(s);
    OneAgrees(k, y => Accepts(fuel, d1, v1, y), y => Accepts(fuel, d, v, y),
      "then" in s.fields ==> Accepts(fuel, d, s.fields["then"], x),
      "else" in s.fields ==> Accepts(fuel, d, s.fields["else"], x), d, d1, SiblingsOf(s), x);
  }

  lemma {:induction false} ListIsPreserved(fuel: nat, d: Dialect, d1: Dialect, s: Json, k: string, x: Json)
    requires Rewrites(d, d1) && s.Obj? && DataIsClean(s) && k in s.fields && RoleOf(k) == SchemaList
    ensures Holds(fuel, d1, Rewrite(s), k, x) == Holds(fuel, d, s, k, x)
    decreases fuel, s, 0, 0
  {
    var v, v1 := s.fields[k], Rewrite(s.fields[k]);
    assert DataIsCleanUnder(k, v);
    assert Rewrite(s).fields[k] == v1;
    if v.Arr? {
      forall i, y | 0 <= i < |v.items|
        ensures Accepts(fuel, d1, v1.items[i], y) == Accepts(fuel, d, v.items[i], y)
      {
        AcceptanceIsPreserved(fuel, d, d1, "", v.items[i], y);
      }
      ListAgrees(k, |v.items|, (i, y) => 0 <= i < |v1.items| && Accepts(fuel, d1, v1.items[i], y),
        (i, y) => 0 <= i < |v.items| && Accepts(fuel, d, v.items[i], y), x);
    }
  }

  lemma {:induction false} MapIsPreserved(fuel: nat, d: Dialect, d1: Dialect, s: Json, k: string, x: Json)
    requires Rewrites(d, d1) && s.Obj? && DataIsClean(s) && k in s.fields && RoleOf(k) == SchemaMap
    ensures Holds(fuel, d1, Rewrite(s), k, x) == Holds(fuel, d, s, k, x)
    decreases fuel, s, 0, 0
  {
    var v, v1 := s.fields[k], Rewrite(s.fields[k]);
    assert DataIsCleanUnder(k, v);
    assert Rewrite(s).fields[k] == v1;
    if v.Obj? {
      forall p, y | p in v.fields
        ensures Accepts(fuel, d1, v1.fields[p], y) == Accepts(fuel, d, v.fields[p], y)
      {
        AcceptanceIsPreserved(fuel, d, d1, p, v.fields[p], y);
      }
    }
  }

  // ----- references into the document itself -----

  /** The schemas behind the references of a document, each reference naming a place in it. */
  function Targets(root: Json, places: map<string, seq<Place>>): map<string, Json> {
    map n | n in places && Lookup(root, places[n]).Some? :: Lookup(root, places[n]).value
  }

  /** No reference points into a boolean "items" schema, where the rewrite makes places that were not there. */
  ghost predicate NoneIntoWritten(root: Json, places: map<string, seq<Place>>) {
    forall n | n in places && Lookup(Rewrite(root), places[n]).Some? :: Lookup(root, places[n]).Some?
  }

  lemma TargetsAreRewritten(root: Json, places: map<string, seq<Place>>, d: Dialect, d1: Dialect)
    requires NoneIntoWritten(root, places) && forall n | n in d.defs :: DataIsClean(d.defs[n])
    requires d.defs == Targets(root, places) && d1 == d.(defs := Targets(Rewrite(root), places))
    ensures Rewrites(d, d1)
  {
    forall n | n in d.defs
      ensures n in d1.defs && d1.defs[n] in {Rewrite(d.defs[n]), RewriteUnder("items", d.defs[n])}
    {
      PlacesAreRewritten(root, places[n]);
    }
    assert d1.defs.Keys == d.defs.Keys;
  }

  /** A document whose references point into itself is rewritten as a whole: it accepts what it accepted, with every
      reference resolved in the new document. */
  lemma DocumentIsPreserved(fuel: nat, d: Dialect, root: Json, places: map<string, seq<Place>>, x: Json)
    requires d.defs == Targets(root, places) && NoneIntoWritten(root, places)
    requires DataIsClean(root) && forall n | n in d.defs :: DataIsClean(d.defs[n])
    ensures Accepts(fuel, d.(defs := Targets(Rewrite(root), places)), Rewrite(root), x) == Accepts(fuel, d, root, x)
  {
    var d1 := d.(defs := Targets(Rewrite(root), places));
    TargetsAreRewritten(root, places, d, d1);
    AcceptanceIsPreserved(fuel, d, d1, "", root, x);
  }

  const REFERS_INTO := Obj(map["$ref" := Str("#/items/not"), "items" := Bool(false)])
  const REFERRED := map["#/items/not" := [Key("items"), Key("not")]]

  lemma ReferredPlaces()
    ensures Targets(REFERS_INTO, REFERRED) == map[]
    ensures Rewrite(REFERS_INTO) == Obj(map["$ref" := Str("#/items/not"), "items" := BooleanAsObject(false)])
    ensures Targets(Rewrite(REFERS_INTO), REFERRED) == map["#/items/not" := Obj(map[])]
  {
    var path, written := [Key("items"), Key("not")], BooleanAsObject(false);
    assert path[1..] == [Key("not")] && path[1..][1..] == [];
    assert Lookup(Bool(false), path[1..]) == None && Lookup(REFERS_INTO, path) == None;
    assert Rewrite(REFERS_INTO).fields == map["$ref" := Str("#/items/not"), "items" := written];
    assert Lookup(written, path[1..]) == Lookup(Obj(map[]), []);
    assert Lookup(Rewrite(REFERS_INTO), path) == Some(Obj(map[]));
  }

  /** The condition on references is needed: one that points into a boolean "items" leads nowhere before the rewrite,
      so nothing is accepted, and leads to the empty schema after it. */
  lemma WrittenObjectIsReferred(fuel: nat, d: Dialect, x: Json)
    requires fuel > 0 && !x.Arr?
    ensures !Accepts(fuel, d.(defs := Targets(REFERS_INTO, REFERRED)), REFERS_INTO, x)
    ensures Accepts(fuel, d.(defs := Targets(Rewrite(REFERS_INTO), REFERRED)), Rewrite(REFERS_INTO), x)
  {
    ReferredPlaces();
    assert RoleOf("$ref") == Reference && RoleOf("items") == OneSchema;
    assert !Holds(fuel, d.(defs := map[]), REFERS_INTO, "$ref", x);
    var d1 := d.(defs := map["#/items/not" := Obj(map[])]);
    assert Accepts(fuel - 1, d1, Obj(map[]), x);
    assert Holds(fuel, d1, Rewrite(REFERS_INTO), "$ref", x) && Holds(fuel, d1, Rewrite(REFERS_INTO), "items", x);
  }

  /** The condition on data is needed: a const is preserved exactly when its value holds no boolean under "items". */
  lemma ConstIsPreservedIff(fuel: nat, d: Dialect, v: Json)
    requires forall w, x :: d.assertion("const", w, x) == (w == x)
    ensures var s := Obj(map["const" := v]);
      (forall x :: Accepts(fuel, d, Rewrite(s), x) == Accepts(fuel, d, s, x)) <==> NoBooleanItems(v)
  {
    var s := Obj(map["const" := v]);
    FixedIff(v);
    assert Rewrite(s).fields["const"] == Rewrite(v);
    forall x
      ensures Accepts(fuel, d, s, x) == (v == x) && Accepts(fuel, d, Rewrite(s), x) == (Rewrite(v) == x)
    {
      assert RoleOf("const") == Assertion;
      assert Holds(fuel, d, s, "const", x) == (v == x);
      assert Holds(fuel, d, Rewrite(s), "const", x) == (Rewrite(v) == x);
    }
    assert Accepts(fuel, d, s, v);
  }
}
