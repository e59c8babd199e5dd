/**
 From accepted arguments to middleware parameters (internal/server/concern_tool.go:81-105, 264-363), and for which
 operations no argument is lost on the way.
 */
module DispatchParams {
  import opened Dispatch
  import opened JsonValue
  import opened Wrappers

  datatype DispatchInput = DispatchInput(
    op: string, id: string, name: string, container: string, pool: string, dataset: string, path: string,
    category: string, limit: int, full: bool)
  {
    function Argument(a: string): string {
      if a == "id" then id
      else if a == "name" then name
      else if a == "container" then container
      else if a == "pool" then pool
      else if a == "dataset" then dataset
      else if a == "path" then path
      else if a == "category" then category
      else ""
    }

    function SuppliedAmong(names: seq<string>): map<string, Json> {
      map a | a in names && Argument(a) != "" :: Str(Argument(a))
    }

    /** The arguments supplied: those that are not empty. Limit and Full are not arguments. */
    function Supplied(): map<string, Json> {
      SuppliedAmong(ARGUMENTS)
    }

    method Args() returns (a: map<string, Json>)
      ensures a == Supplied()
    {
      a := map[];
      a := AddArg(a, [], "id", id);
      a := AddArg(a, ["id"], "name", name);
      a := AddArg(a, ["id", "name"], "container", container);
      a := AddArg(a, ["id", "name", "container"], "pool", pool);
      a := AddArg(a, ["id", "name", "container", "pool"], "dataset", dataset);
      a := AddArg(a, ["id", "name", "container", "pool", "dataset"], "path", path);
      a := AddArg(a, ["id", "name", "container", "pool", "dataset", "path"], "category", category);
    }

    method AddArg(a: map<string, Json>, ghost before: seq<string>, k: string, v: string) returns (r: map<string, Json>)
      requires a == SuppliedAmong(before) && v == Argument(k)
      ensures r == SuppliedAmong(before + [k])
    {
      r := a;
      if v != "" {
        r := r[k := Str(v)];
      }
    }
  }

  const ARGUMENTS := ["id", "name", "container", "pool", "dataset", "path", "category"]
  const POSITIONAL := ["id", "name", "path"]
  const DEFAULT_LIMIT := 50

  function EffectiveLimit(limit: int): (r: int)
    ensures r > 0 && (limit > 0 ==> r == limit) && (limit <= 0 ==> r == 50)
  {
    if limit <= 0 then DEFAULT_LIMIT else limit
  }

  /** The declared options with the limit inside their query-options object. */
  function WithLimit(options: map<string, Json>, limit: int): map<string, Json> {
    options["query-options" := Obj(QueryOptions(options)["limit" := Number(limit as real)])]
  }

  function QueryOptions(options: map<string, Json>): map<string, Json> {
    if "query-options" in options && options["query-options"].Obj? then options["query-options"].fields else map[]
  }

  function Triple(f: Filter, v: Json): Json {
    Arr([Str(f.field), Str(f.operator), v])
  }

  /** One triple for each declared filter whose argument was supplied, in the order of declaration. */
  function FilterList(filters: seq<Filter>, args: map<string, Json>): seq<Json> {
    if filters == [] then []
    else
      var f := filters[|filters| - 1];
      FilterList(filters[..|filters| - 1], args) + (if f.arg in args then [Triple(f, args[f.arg])] else [])
  }

  // The identifier that wins: the first of id, name and path that is supplied and that the operation takes.
  function Identifier(op: Op, args: map<string, Json>): Option<string> {
    if "id" in args && "id" in op.args then Some("id")
    else if "name" in args && "name" in op.args then Some("name")
    else if "path" in args && "path" in op.args then Some("path")
    else None
  }

  function Params(op: Op, args: map<string, Json>, limit: int): seq<Json> {
    var identifier := Identifier(op, args);
    if identifier.Some? then [args[identifier.value]]
    else if op.options.Some? then [Obj(WithLimit(op.options.value, EffectiveLimit(limit)))]
    else
      var filters := FilterList(op.filters, args);
      if filters == [] then [] else [Arr(filters)]
  }

  // The argument `a` has this value, or is not supplied when that is empty.
  predicate Gives(args: map<string, Json>, a: string, v: string) {
    if v == "" then a !in args else a in args && args[a] == Str(v)
  }

  /** Each field is supplied under its own name, and nothing else is. */
  lemma SuppliedMeans(input: DispatchInput)
    ensures var args := input.Supplied();
      && Gives(args, "id", input.id) && Gives(args, "name", input.name) && Gives(args, "path", input.path)
      && Gives(args, "container", input.container) && Gives(args, "pool", input.pool)
      && Gives(args, "dataset", input.dataset) && Gives(args, "category", input.category)
      && args.Keys <= {"id", "name", "container", "pool", "dataset", "path", "category"}
  {
  }

  method MiddlewareParams(op: Op, input: DispatchInput) returns (params: seq<Json>)
    ensures params == Params(op, input.Supplied(), input.limit)
  {
    SuppliedMeans(input);
    if input.id != "" && "id" in op.args {
      return [Str(input.id)];
    }
    if input.name != "" && "name" in op.args {
      return [Str(input.name)];
    }
    if input.path != "" && "path" in op.args {
      return [Str(input.path)];
    }
    if op.options.Some? {
      return [Obj(WithLimit(op.options.value, EffectiveLimit(input.limit)))];
    }
    var argVals := input.Args();
    var filters := Narrowing(op.filters, argVals);
    if |filters| > 0 {
      return [Arr(filters)];
    }
    return [];
  }

  method Narrowing(declared: seq<Filter>, argVals: map<string, Json>) returns (filters: seq<Json>)
    ensures filters == FilterList(declared, argVals)
  {
    filters := [];
    for i := 0 to |declared|
      invariant filters == FilterList(declared[..i], argVals)
    {
      assert declared[..i + 1][..i] == declared[..i];
      if declared[i].arg in argVals {
        filters := filters + [Triple(declared[i], argVals[declared[i].arg])];
      }
    }
    assert declared[..|declared|] == declared;
  }

  // ----- which operations lose nothing -----

  /** Resolve accepts these arguments for the operation. */
  predicate Accepts(op: Op, args: map<string, Json>) {
    && args.Keys <= Set(DeclaredArgs(op))
    && forall a | a in op.required :: !IsMissing(args, a)
  }

  /** The argument values that parameters carry: an identifier, or the value of each filter. */
  function CarriedValues(params: seq<Json>): multiset<Json> {
    if |params| == 1 && params[0].Str? then multiset{params[0]}
    else if |params| == 1 && params[0].Arr? then FilterValues(params[0].items)
    else multiset{}
  }

  function FilterValues(triples: seq<Json>): multiset<Json> {
    if triples == [] then multiset{}
    else
      var t := triples[|triples| - 1];
      FilterValues(triples[..|triples| - 1]) + (if t.Arr? && |t.items| == 3 then multiset{t.items[2]} else multiset{})
  }

  /** The values a list of names has in a map, each as often as its name is listed. */
  function Values(names: seq<string>, m: map<string, Json>): multiset<Json> {
    if names == [] then multiset{}
    else
      var a := names[|names| - 1];
      Values(names[..|names| - 1], m) + (if a in m then multiset{m[a]} else multiset{})
  }

  /** The parameters carry every supplied argument exactly once, and nothing else. */
  predicate CarriesAll(op: Op, input: DispatchInput) {
    CarriedValues(Params(op, input.Supplied(), input.limit)) == Values(ARGUMENTS, input.Supplied())
  }

  // The arguments that both the operation and DispatchInput know.
  function Usable(op: Op): set<string> {
    set a | a in ARGUMENTS && a in DeclaredArgs(op)
  }

  predicate TakesIdentifier(op: Op) {
    exists p | p in POSITIONAL :: p in op.args
  }

  /** What a reader of the declaration can check: the only usable argument is an identifier; or there is no
      identifier, there are no options, and each usable argument is the argument of exactly one filter; or nothing can
      be supplied. */
  predicate Lossless(op: Op) {
    var usable := Usable(op);
    || !(Set(op.required) <= usable)
    || if TakesIdentifier(op) then (exists p | p in POSITIONAL :: p in op.args && usable == {p})
       else if op.options.Some? then usable == {}
       else forall a | a in usable :: multiset(FilterArgs(op.filters))[a] == 1
  }

  lemma {:induction false} FilterListCarries(filters: seq<Filter>, args: map<string, Json>)
    ensures FilterValues(FilterList(filters, args)) == Values(FilterArgs(filters), args)
  {
    if filters != [] {
      var n := |filters| - 1;
      var before, f := filters[..n], filters[n];
      FilterListCarries(before, args);
      assert FilterArgs(filters)[..n] == FilterArgs(before);
      var triples := FilterList(before, args);
      if f.arg in args {
        assert (triples + [Triple(f, args[f.arg])])[..|triples|] == triples;
      } else {
        assert triples + [] == triples;
      }
    }
  }

  lemma IdentifierFound(op: Op, args: map<string, Json>)
    ensures Identifier(op, args).Some? ==>
              var p := Identifier(op, args).value; p in POSITIONAL && p in args && p in op.args
    ensures forall p | p in POSITIONAL && p in args && p in op.args :: Identifier(op, args).Some?
  {
  }

  /** Without an identifier or options, what is carried is what the filters name. */
  lemma ParamsCarry(op: Op, args: map<string, Json>, limit: int)
    requires forall a | a in args :: args[a].Str?
    ensures CarriedValues(Params(op, args, limit)) ==
            if Identifier(op, args).Some? then multiset{args[Identifier(op, args).value]}
            else if op.options.Some? then multiset{}
            else Values(FilterArgs(op.filters), args)
  {
    IdentifierFound(op, args);
    var filters := FilterList(op.filters, args);
    FilterListCarries(op.filters, args);
    assert filters == [] || CarriedValues([Arr(filters)]) == FilterValues(filters);
    assert CarriedValues([]) == multiset{};
  }

  lemma {:induction false} ValuesWithout(names: seq<string>, m: map<string, Json>, a: string)
    requires a in m
    ensures Values(names, m) == Values(names, m - {a}) + multiset{}[m[a] := multiset(names)[a]]
  {
    if names != [] {
      var n := |names| - 1;
      ValuesWithout(names[..n], m, a);
      assert names == names[..n] + [names[n]];
      assert multiset(names) == multiset(names[..n]) + multiset{names[n]};
    }
  }

  lemma {:induction false} ValuesOfNothing(names: seq<string>)
    ensures Values(names, map[]) == multiset{}
  {
    if names != [] {
      ValuesOfNothing(names[..|names| - 1]);
    }
  }

  /** Two lists that name every key once give the same values. */
  lemma {:induction false} ValuesAgree(ns: seq<string>, ms: seq<string>, m: map<string, Json>)
    requires forall a | a in m :: multiset(ns)[a] == 1 && multiset(ms)[a] == 1
    ensures Values(ns, m) == Values(ms, m)
    decreases |m|
  {
    if m == map[] {
      ValuesOfNothing(ns);
      ValuesOfNothing(ms);
    } else {
      var a :| a in m;
      ValuesWithout(ns, m, a);
      ValuesWithout(ms, m, a);
      assert (m - {a}).Keys == m.Keys - {a};
      ValuesAgree(ns, ms, m - {a});
    }
  }

  /** When every value is the name itself, a name's value occurs as often as the name is listed. */
  lemma {:induction false} ValuesOfNames(names: seq<string>, m: map<string, Json>, a: string)
    requires forall b | b in m :: m[b] == Str(b)
    ensures Values(names, m)[Str(a)] == if a in m then multiset(names)[a] else 0
  {
    if names != [] {
      var n := |names| - 1;
      ValuesOfNames(names[..n], m, a);
      assert names == names[..n] + [names[n]];
    }
  }

  lemma ArgumentsAreDistinct(a: string)
    ensures multiset(ARGUMENTS)[a] == if a in ARGUMENTS then 1 else 0
  {
  }

  // Each of these arguments supplied, with its own name as its value.
  function Filled(names: set<string>): DispatchInput {
    DispatchInput("", Name(names, "id"), Name(names, "name"), Name(names, "container"), Name(names, "pool"),
      Name(names, "dataset"), Name(names, "path"), Name(names, "category"), 0, false)
  }

  function Name(names: set<string>, a: string): string {
    if a in names then a else ""
  }

  lemma FilledArgument(names: set<string>, a: string)
    ensures Filled(names).Argument(a) == if a in ARGUMENTS then Name(names, a) else ""
  {
  }

  lemma FilledSupplies(names: set<string>)
    requires forall a | a in names :: a in ARGUMENTS && a != ""
    ensures Filled(names).Supplied() == map a | a in names :: Str(a)
  {
    forall a ensures Filled(names).Argument(a) == if a in ARGUMENTS then Name(names, a) else "" {
      FilledArgument(names, a);
    }
  }

  /** An operation loses none of the arguments that Resolve accepts for it if and only if it is declared losslessly. */
  lemma LosslessIff(op: Op)
    ensures Lossless(op) <==> forall input: DispatchInput :: Accepts(op, input.Supplied()) ==> CarriesAll(op, input)
  {
    if Lossless(op) {
      forall input: DispatchInput | Accepts(op, input.Supplied()) ensures CarriesAll(op, input) {
        LosslessCarriesAll(op, input);
      }
    } else {
      var input := Filled(Usable(op));
      FilledSupplies(Usable(op));
      assert Accepts(op, input.Supplied());
      LossShows(op, input);
    }
  }

  lemma IdentifiersAreUsable(op: Op)
    ensures forall p | p in POSITIONAL && p in op.args :: p in Usable(op)
  {
  }

  lemma LosslessCarriesAll(op: Op, input: DispatchInput)
    requires Lossless(op) && Accepts(op, input.Supplied())
    ensures CarriesAll(op, input)
  {
    var args := input.Supplied();
    assert args.Keys <= Usable(op);
    assert Set(op.required) <= args.Keys;
    ParamsCarry(op, args, input.limit);
    IdentifierFound(op, args);
    if TakesIdentifier(op) {
      var p :| p in POSITIONAL && p in op.args && Usable(op) == {p};
      OneIsCarried(args, p);
      NoneIsCarried(op, args);
    } else if op.options.Some? {
      NoneIsCarried(op, args);
    } else {
      FiltersCarryAll(op.filters, args);
    }
  }

  lemma FiltersCarryAll(filters: seq<Filter>, args: map<string, Json>)
    requires forall a | a in args :: a in ARGUMENTS && multiset(FilterArgs(filters))[a] == 1
    ensures Values(FilterArgs(filters), args) == Values(ARGUMENTS, args)
  {
    forall a | a in args
      ensures multiset(ARGUMENTS)[a] == 1
    {
      ArgumentsAreDistinct(a);
    }
    ValuesAgree(FilterArgs(filters), ARGUMENTS, args);
  }

  lemma NoneIsCarried(op: Op, args: map<string, Json>)
    ensures args == map[] ==> Values(ARGUMENTS, args) == Values(FilterArgs(op.filters), args) == multiset{}
  {
    ValuesOfNothing(ARGUMENTS);
    ValuesOfNothing(FilterArgs(op.filters));
  }

  lemma OneIsCarried(args: map<string, Json>, p: string)
    requires args.Keys <= {p} && p in ARGUMENTS
    ensures Values(ARGUMENTS, args) == if p in args then multiset{args[p]} else multiset{}
  {
    ValuesOfNothing(ARGUMENTS);
    ArgumentsAreDistinct(p);
    if p in args {
      ValuesWithout(ARGUMENTS, args, p);
      assert args - {p} == map[];
    } else {
      assert args == map[];
    }
  }

  /** An argument that the parameters carry not at all, or more than once. */
  lemma LostArgument(op: Op, args: map<string, Json>) returns (a: string)
    requires !Lossless(op) && args.Keys == Usable(op)
    ensures a in args
    ensures if Identifier(op, args).Some? then a != Identifier(op, args).value
            else op.options.Some? || multiset(FilterArgs(op.filters))[a] != 1
  {
    IdentifierFound(op, args);
    IdentifiersAreUsable(op);
    if Identifier(op, args).Some? {
      var p := Identifier(op, args).value;
      assert TakesIdentifier(op) && Usable(op) != {p};
      a :| a in Usable(op) && a != p;
    } else {
      assert !TakesIdentifier(op);
      a :| a in Usable(op) && (op.options.Some? || multiset(FilterArgs(op.filters))[a] != 1);
    }
  }

  lemma LossShows(op: Op, input: DispatchInput)
    requires !Lossless(op) && input.Supplied() == map a | a in Usable(op) :: Str(a)
    ensures !CarriesAll(op, input)
  {
    var args := input.Supplied();
    ParamsCarry(op, args, input.limit);
    var a := LostArgument(op, args);
    ValuesOfNames(ARGUMENTS, args, a);
    ValuesOfNames(FilterArgs(op.filters), args, a);
    ArgumentsAreDistinct(a);
  }

  /** The two shapes operations are declared in: one identifier and nothing else, or only filters with distinct
      arguments. */
  predicate IsSimple(op: Op) {
    || (op.filters == [] && exists p | p in POSITIONAL :: op.args == [p])
    || (op.args == [] && op.options.None? &&
        forall a | a in FilterArgs(op.filters) :: multiset(FilterArgs(op.filters))[a] == 1)
  }

  lemma SimpleIsLossless(op: Op)
    requires IsSimple(op)
    ensures Lossless(op)
  {
  }

  /** Whatever the operation declares, a call that sends an identifier carries all its arguments if and only if the
      identifier is the only one: that is where `container` beside `name` gets lost. */
  lemma IdentifierCarriesAllIff(op: Op, input: DispatchInput)
    requires Identifier(op, input.Supplied()).Some?
    ensures CarriesAll(op, input) <==> input.Supplied().Keys == {Identifier(op, input.Supplied()).value}
  {
    var args := input.Supplied();
    var p := Identifier(op, args).value;
    IdentifierFound(op, args);
    ParamsCarry(op, args, input.limit);
    if args.Keys == {p} {
      OneIsCarried(args, p);
    } else {
      var a :| a in args && a != p;
      ArgumentsAreDistinct(a);
      ArgumentsAreDistinct(p);
      ValuesWithout(ARGUMENTS, args, a);
      ValuesWithout(ARGUMENTS, args - {a}, p);
      assert |multiset{args[p]}| == 1;
    }
  }

  // ----- reading the arguments back -----

  predicate DistinctTargets(filters: seq<Filter>) {
    forall i, j | 0 <= i < j < |filters| ::
      filters[i].field != filters[j].field || filters[i].operator != filters[j].operator
  }

  lemma {:induction false} TriplesAreDeclared(filters: seq<Filter>, args: map<string, Json>, t: Json)
    requires t in FilterList(filters, args)
    ensures exists i :: 0 <= i < |filters| && filters[i].arg in args && t == Triple(filters[i], args[filters[i].arg])
  {
    var n := |filters| - 1;
    if t in FilterList(filters[..n], args) {
      TriplesAreDeclared(filters[..n], args, t);
    }
  }

  /** Filters that narrow distinct targets tell which arguments they came from. */
  lemma {:induction false} FilterListIsInjective(filters: seq<Filter>, m: map<string, Json>, m1: map<string, Json>)
    requires DistinctTargets(filters) && FilterList(filters, m) == FilterList(filters, m1)
    ensures forall i | 0 <= i < |filters| :: ArgumentAgrees(m, m1, filters[i].arg)
  {
    if filters != [] {
      var n := |filters| - 1;
      LastTripleAgrees(filters, m, m1);
      LastTripleAgrees(filters, m1, m);
      WithoutLastTriple(filters, m, m1);
      FilterListIsInjective(filters[..n], m, m1);
      assert forall i | 0 <= i < n :: filters[i] == filters[..n][i];
    }
  }

  lemma WithoutLastTriple(filters: seq<Filter>, m: map<string, Json>, m1: map<string, Json>)
    requires filters != [] && FilterList(filters, m) == FilterList(filters, m1)
    requires filters[|filters| - 1].arg in m <==> filters[|filters| - 1].arg in m1
    ensures FilterList(filters[..|filters| - 1], m) == FilterList(filters[..|filters| - 1], m1)
    ensures ArgumentAgrees(m, m1, filters[|filters| - 1].arg)
  {
    var before, f := filters[..|filters| - 1], filters[|filters| - 1];
    if f.arg in m {
      LastApart(FilterList(before, m), Triple(f, m[f.arg]), FilterList(before, m1), Triple(f, m1[f.arg]));
      assert Triple(f, m[f.arg]).items[2] == Triple(f, m1[f.arg]).items[2];
    } else {
      assert FilterList(before, m) + [] == FilterList(before, m);
      assert FilterList(before, m1) + [] == FilterList(before, m1);
    }
  }

  lemma LastApart(s: seq<Json>, x: Json, t: seq<Json>, y: Json)
    requires s + [x] == t + [y]
    ensures s == t && x == y
  {
    assert (s + [x])[..|s|] == s && (t + [y])[..|t|] == t;
    assert (s + [x])[|s|] == x && (t + [y])[|t|] == y;
  }

  predicate ArgumentAgrees(m: map<string, Json>, m1: map<string, Json>, a: string) {
    (a in m <==> a in m1) && (a in m ==> m[a] == m1[a])
  }

  lemma LastTripleAgrees(filters: seq<Filter>, m: map<string, Json>, m1: map<string, Json>)
    requires filters != [] && DistinctTargets(filters) && FilterList(filters, m) == FilterList(filters, m1)
    ensures filters[|filters| - 1].arg in m ==> filters[|filters| - 1].arg in m1
  {
    var n := |filters| - 1;
    if filters[n].arg in m {
      LastTripleIsNew(filters, m1, m[filters[n].arg]);
      assert Triple(filters[n], m[filters[n].arg]) in FilterList(filters, m1);
    }
  }

  lemma LastTripleIsNew(filters: seq<Filter>, args: map<string, Json>, v: Json)
    requires filters != [] && DistinctTargets(filters)
    ensures Triple(filters[|filters| - 1], v) !in FilterList(filters[..|filters| - 1], args)
  {
    var n := |filters| - 1;
    assert forall i, w | 0 <= i < n :: DifferentTriples(filters[n], v, filters[i], w);
    if Triple(filters[n], v) in FilterList(filters[..n], args) {
      TriplesAreDeclared(filters[..n], args, Triple(filters[n], v));
    }
  }

  predicate DifferentTriples(f: Filter, v: Json, g: Filter, w: Json) {
    Triple(f, v).items[0] != Triple(g, w).items[0] || Triple(f, v).items[1] != Triple(g, w).items[1]
  }

  /** The arguments of a call can be read back from its parameters: two accepted inputs of a lossless operation without
      options that lead to the same parameters supplied the same arguments. */
  lemma ArgumentsCanBeReadBack(op: Op, x: DispatchInput, y: DispatchInput)
    requires Lossless(op) && op.options.None? && DistinctTargets(op.filters)
    requires Accepts(op, x.Supplied()) && Accepts(op, y.Supplied())
    requires Params(op, x.Supplied(), x.limit) == Params(op, y.Supplied(), y.limit)
    ensures x.Supplied() == y.Supplied()
  {
    var m, m1 := x.Supplied(), y.Supplied();
    assert m.Keys <= Usable(op) && m1.Keys <= Usable(op);
    IdentifierFound(op, m);
    IdentifierFound(op, m1);
    if TakesIdentifier(op) {
      var p :| p in POSITIONAL && p in op.args && Usable(op) == {p};
      IdentifierReadsBack(op, m, m1, x.limit, y.limit, p);
    } else {
      FiltersReadBack(op.filters, m, m1);
    }
  }

  lemma IdentifierReadsBack(
    op: Op, m: map<string, Json>, m1: map<string, Json>, limit: int, limit1: int, p: string)
    requires p in POSITIONAL && p in op.args && m.Keys <= {p} && m1.Keys <= {p} && op.options.None?
    requires Params(op, m, limit) == Params(op, m1, limit1)
    ensures m == m1
  {
    OneIsSent(op, m, limit, p);
    OneIsSent(op, m1, limit1, p);
    assert p in m <==> p in m1;
  }

  lemma FiltersReadBack(filters: seq<Filter>, m: map<string, Json>, m1: map<string, Json>)
    requires DistinctTargets(filters) && FilterList(filters, m) == FilterList(filters, m1)
    requires forall a | a in m || a in m1 :: multiset(FilterArgs(filters))[a] == 1
    ensures m == m1
  {
    FilterListIsInjective(filters, m, m1);
    forall a | a in m || a in m1 ensures ArgumentAgrees(m, m1, a) {
      assert a in FilterArgs(filters);
    }
  }

  lemma OneIsSent(op: Op, args: map<string, Json>, limit: int, p: string)
    requires p in POSITIONAL && p in op.args && args.Keys <= {p} && op.options.None?
    ensures Params(op, args, limit) == if p in args then [args[p]] else []
  {
    IdentifierFound(op, args);
    EmptyGivesNothing(op.filters);
    assert p !in args ==> args == map[];
  }

  lemma {:induction false} EmptyGivesNothing(filters: seq<Filter>)
    ensures FilterList(filters, map[]) == []
  {
    if filters != [] {
      EmptyGivesNothing(filters[..|filters| - 1]);
    }
  }

  // ----- which identifier is sent -----

  // The operation takes the identifier `p`, and the call supplies it.
  predicate Identifies(op: Op, input: DispatchInput, p: string) {
    p in op.args && p in input.Supplied()
  }

  /** The identifier sent is the first of id, name and path that the operation takes and the call supplies, and it is
      all that is sent. */
  lemma FirstIdentifierIsSent(op: Op, input: DispatchInput, k: nat)
    requires k < 3
    requires var names := ["id", "name", "path"];
      Identifies(op, input, names[k]) && forall j | 0 <= j < k :: !Identifies(op, input, names[j])
    ensures Params(op, input.Supplied(), input.limit) == [Str([input.id, input.name, input.path][k])]
  {
    SuppliedMeans(input);
    var names := ["id", "name", "path"];
    assert k > 0 ==> !Identifies(op, input, names[0]);
    assert k > 1 ==> !Identifies(op, input, names[1]);
  }

  // ----- what the target makes of the filters -----

  // Whether a value of a row stands in the relation of an operator to an operand.
  type Relation = (string, Json, Json) -> bool

  /** A filter as the middleware reads it: a list of a field of the row, an operator and an operand, in that order. */
  predicate Passes(filter: Json, row: map<string, Json>, relates: Relation) {
    && filter.Arr? && |filter.items| == 3
    && filter.items[0].Str? && filter.items[0].text in row
    && filter.items[1].Str? && relates(filter.items[1].text, row[filter.items[0].text], filter.items[2])
  }

  /** Parameters that hold a filter list select the rows that pass every filter; without parameters, every row. */
  predicate Selects(params: seq<Json>, row: map<string, Json>, relates: Relation) {
    params == [] || (|params| == 1 && params[0].Arr? && forall f | f in params[0].items :: Passes(f, row, relates))
  }

  // What the declaration of the operation says of a row.
  predicate Meets(filter: Filter, args: map<string, Json>, row: map<string, Json>, relates: Relation) {
    filter.arg in args ==>
      filter.field in row && relates(filter.operator, row[filter.field], args[filter.arg])
  }

  lemma {:induction false} FilterListMeans(
    filters: seq<Filter>, args: map<string, Json>, row: map<string, Json>, relates: Relation)
    ensures (forall f | f in FilterList(filters, args) :: Passes(f, row, relates)) <==>
            forall i | 0 <= i < |filters| :: Meets(filters[i], args, row, relates)
  {
    if filters != [] {
      var n := |filters| - 1;
      var before, last := FilterList(filters[..n], args), filters[n];
      FilterListMeans(filters[..n], args, row, relates);
      assert forall i | 0 <= i < n :: filters[..n][i] == filters[i];
      if last.arg in args {
        var triple := Triple(last, args[last.arg]);
        assert FilterList(filters, args) == before + [triple];
        assert Passes(triple, row, relates) <==> Meets(last, args, row, relates);
      }
    }
  }

  /** The target selects a row if and only if, for every declared filter whose argument the call supplied, the field
      of the row stands in the relation of the operator to that argument. */
  lemma FiltersSelect(op: Op, input: DispatchInput, row: map<string, Json>, relates: Relation)
    requires Identifier(op, input.Supplied()).None? && op.options.None?
    ensures Selects(Params(op, input.Supplied(), input.limit), row, relates) <==>
            forall i | 0 <= i < |op.filters| && op.filters[i].arg in input.Supplied() ::
              var f := op.filters[i];
              f.field in row && relates(f.operator, row[f.field], input.Supplied()[f.arg])
  {
    FilterListMeans(op.filters, input.Supplied(), row, relates);
    assert forall i | 0 <= i < |op.filters| ::
        Meets(op.filters[i], input.Supplied(), row, relates) <==>
        (op.filters[i].arg in input.Supplied() ==>
           op.filters[i].field in row &&
           relates(op.filters[i].operator, row[op.filters[i].field], input.Supplied()[op.filters[i].arg]));
  }

  // How many of the filters have their argument supplied.
  function SuppliedCount(filters: seq<Filter>, args: map<string, Json>): nat {
    if filters == [] then 0
    else SuppliedCount(filters[..|filters| - 1], args) + (if filters[|filters| - 1].arg in args then 1 else 0)
  }

  /** The filters are sent in the order of their declaration, each in its place and none besides. */
  lemma {:induction false} FiltersKeepOrder(filters: seq<Filter>, args: map<string, Json>, i: nat)
    requires i < |filters| && filters[i].arg in args
    ensures |FilterList(filters, args)| == SuppliedCount(filters, args)
    ensures SuppliedCount(filters[..i], args) < |FilterList(filters, args)|
    ensures FilterList(filters, args)[SuppliedCount(filters[..i], args)] ==
            Arr([Str(filters[i].field), Str(filters[i].operator), args[filters[i].arg]])
  {
    var n := |filters| - 1;
    CountIsLength(filters[..n], args);
    if i < n {
      FiltersKeepOrder(filters[..n], args, i);
      assert filters[..n][..i] == filters[..i];
    }
  }

  lemma {:induction false} CountIsLength(filters: seq<Filter>, args: map<string, Json>)
    ensures |FilterList(filters, args)| == SuppliedCount(filters, args)
  {
    if filters != [] {
      CountIsLength(filters[..|filters| - 1], args);
    }
  }

  // ----- options -----

  /** An operation with options sends exactly them, except that the limit inside query-options is the caller's own. */
  lemma OptionsAreSent(op: Op, input: DispatchInput)
    requires op.options.Some? && Identifier(op, input.Supplied()).None?
    ensures var params := Params(op, input.Supplied(), input.limit);
      && |params| == 1 && params[0].Obj?
      && var sent, declared := params[0].fields, op.options.value;
      && sent - {"query-options"} == declared - {"query-options"}
      && QueryOptions(sent) - {"limit"} == QueryOptions(declared) - {"limit"}
      && "limit" in QueryOptions(sent)
      && QueryOptions(sent)["limit"] == Number(if input.limit > 0 then input.limit as real else DEFAULT_LIMIT as real)
  {
  }
}
