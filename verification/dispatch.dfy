/** Choosing an operation and checking the arguments given to it (internal/tools/dispatch.go). */
module Dispatch {
  import opened JsonValue
  import opened Wrappers

  datatype Filter = Filter(arg: string, field: string, operator: string)

  datatype Op = Op(
    name: string, target: string, args: seq<string>, required: seq<string>, project: seq<string>,
    filters: seq<Filter>, options: Option<map<string, Json>>)

  datatype Resolution =
    | Resolved(op: Op)
    | UnknownOperation
    | Unexpected(names: set<string>)
    | Missing(names: set<string>)

  function FilterArgs(filters: seq<Filter>): (r: seq<string>)
    ensures |r| == |filters|
  {
    seq(|filters|, i requires 0 <= i < |filters| => filters[i].arg)
  }

  // Every argument an operation declares, as often as it declares it.
  function DeclaredArgs(op: Op): seq<string> {
    op.args + FilterArgs(op.filters)
  }

  /** What is left of a list when every element but its first occurrence goes. */
  function FirstOccurrences(s: seq<string>): seq<string> {
    if s == [] then []
    else
      var before := FirstOccurrences(s[..|s| - 1]);
      if s[|s| - 1] in before then before else before + [s[|s| - 1]]
  }

  lemma {:induction false} FirstOccurrencesAreDistinct(s: seq<string>)
    ensures forall a :: a in FirstOccurrences(s) <==> a in s
    ensures forall i, j | 0 <= i < j < |FirstOccurrences(s)| :: FirstOccurrences(s)[i] != FirstOccurrences(s)[j]
  {
    if s != [] {
      FirstOccurrencesAreDistinct(s[..|s| - 1]);
      assert s == s[..|s| - 1] + [s[|s| - 1]];
    }
  }

  predicate FirstAt(s: seq<string>, a: string, p: nat) {
    p < |s| && s[p] == a && a !in s[..p]
  }

  lemma FirstAtLater(s: seq<string>, a: string, p: nat)
    requires s != [] && FirstAt(s[..|s| - 1], a, p)
    ensures FirstAt(s, a, p)
  {
    assert s[..|s| - 1][..p] == s[..p];
  }

  /** ... and they stand in the order in which they come first. */
  lemma {:induction false} FirstOccurrencesKeepOrder(s: seq<string>, i: nat, j: nat) returns (p: nat, q: nat)
    requires i < j < |FirstOccurrences(s)|
    ensures p < q && FirstAt(s, FirstOccurrences(s)[i], p) && FirstAt(s, FirstOccurrences(s)[j], q)
  {
    var before := s[..|s| - 1];
    if j < |FirstOccurrences(before)| {
      p, q := FirstOccurrencesKeepOrder(before, i, j);
      FirstAtLater(s, FirstOccurrences(s)[j], q);
    } else {
      p := FirstPosition(before, FirstOccurrences(before)[i]);
      q := |s| - 1;
      FirstOccurrencesAreDistinct(before);
    }
    FirstAtLater(s, FirstOccurrences(s)[i], p);
  }

  lemma {:induction false} FirstPosition(s: seq<string>, a: string) returns (p: nat)
    requires a in FirstOccurrences(s)
    ensures FirstAt(s, a, p)
  {
    var before := s[..|s| - 1];
    if a in FirstOccurrences(before) {
      p := FirstPosition(before, a);
      FirstAtLater(s, a, p);
    } else {
      FirstOccurrencesAreDistinct(before);
      p := |s| - 1;
    }
  }

  method AppendNew(seen0: set<string>, out0: seq<string>, names: seq<string>, ghost before: seq<string>)
    returns (seen: set<string>, out: seq<string>)
    requires out0 == FirstOccurrences(before) && seen0 == Set(out0)
    ensures out == FirstOccurrences(before + names) && seen == Set(out)
  {
    seen, out := seen0, out0;
    ghost var done := before;
    for i := 0 to |names|
      invariant done == before + names[..i]
      invariant out == FirstOccurrences(done) && seen == Set(out)
    {
      assert before + names[..i + 1] == done + [names[i]];
      done := before + names[..i + 1];
      if names[i] !in seen {
        seen := seen + {names[i]};
        out := out + [names[i]];
      }
    }
    assert names[..|names|] == names;
  }

  /** acceptedArgs: every declared argument once, positional ones first, in the order of declaration. */
  method AcceptedArgs(op: Op) returns (out: seq<string>)
    ensures out == FirstOccurrences(op.args + seq(|op.filters|, i requires 0 <= i < |op.filters| => op.filters[i].arg))
    ensures Set(out) == Set(DeclaredArgs(op))
  {
    var seen;
    assert [] + op.args == op.args;
    seen, out := AppendNew({}, [], op.args, []);
    seen, out := AppendNew(seen, out, FilterArgs(op.filters), op.args);
    FirstOccurrencesAreDistinct(DeclaredArgs(op));
    assert FilterArgs(op.filters) == seq(|op.filters|, i requires 0 <= i < |op.filters| => op.filters[i].arg);
  }

  function Set(s: seq<string>): set<string> {
    set a | a in s
  }

  predicate IsMissing(args: map<string, Json>, name: string) {
    name !in args || args[name] == Null || args[name] == Str("")
  }

  /** What Resolve promises about its answer. */
  ghost predicate Answers(ops: seq<Op>, name: string, args: map<string, Json>, r: Resolution) {
    match r
    case UnknownOperation => forall i | 0 <= i < |ops| :: ops[i].name != name
    case Resolved(op) =>
      && IsFirstNamed(ops, name, op) && args.Keys <= Set(DeclaredArgs(op))
      && forall a | a in op.required :: a in args && args[a] != Null && args[a] != Str("")
    case Unexpected(names) =>
      exists op :: IsFirstNamed(ops, name, op) && names == args.Keys - Set(DeclaredArgs(op)) && names != {}
    case Missing(names) =>
      exists op ::
        && IsFirstNamed(ops, name, op) && args.Keys <= Set(DeclaredArgs(op))
        && names == (set a | a in op.required && (a !in args || args[a] == Null || args[a] == Str(""))) && names != {}
  }

  ghost predicate IsFirstNamed(ops: seq<Op>, name: string, op: Op) {
    exists i :: IsFirstNamedAt(ops, name, op, i)
  }

  predicate IsFirstNamedAt(ops: seq<Op>, name: string, op: Op, i: int) {
    0 <= i < |ops| && ops[i] == op && op.name == name && forall j | 0 <= j < i :: ops[j].name != name
  }

  method FindOp(ops: seq<Op>, name: string) returns (op: Option<Op>)
    ensures if op.Some? then IsFirstNamed(ops, name, op.value) else forall i | 0 <= i < |ops| :: ops[i].name != name
  {
    for i := 0 to |ops|
      invariant forall j | 0 <= j < i :: ops[j].name != name
    {
      if ops[i].name == name {
        assert IsFirstNamedAt(ops, name, ops[i], i);
        return Some(ops[i]);
      }
    }
    return None;
  }

  method Disallowed(args: map<string, Json>, accepted: seq<string>) returns (unexpected: set<string>)
    ensures unexpected == args.Keys - Set(accepted)
  {
    var allowed := {};
    for k := 0 to |accepted|
      invariant allowed == Set(accepted[..k])
    {
      assert accepted[..k + 1] == accepted[..k] + [accepted[k]];
      allowed := allowed + {accepted[k]};
    }
    assert accepted[..|accepted|] == accepted;
    unexpected := NotAmong(args, allowed);
  }

  method NotAmong(args: map<string, Json>, allowed: set<string>) returns (unexpected: set<string>)
    ensures unexpected == args.Keys - allowed
  {
    unexpected := {};
    var left := args.Keys;
    while left != {}
      invariant left <= args.Keys && unexpected == (args.Keys - left) - allowed
      decreases |left|
    {
      var a :| a in left;
      left := left - {a};
      if a !in allowed {
        unexpected := unexpected + {a};
      }
    }
  }

  method MissingOf(required: seq<string>, args: map<string, Json>) returns (missing: set<string>)
    ensures missing == set a | a in required && IsMissing(args, a)
  {
    missing := {};
    for k := 0 to |required|
      invariant missing == set a | a in required[..k] && IsMissing(args, a)
    {
      if IsMissing(args, required[k]) {
        missing := missing + {required[k]};
      }
    }
    assert required[..|required|] == required;
  }

  method Resolve(ops: seq<Op>, name: string, args: map<string, Json>) returns (r: Resolution)
    ensures Answers(ops, name, args, r)
  {
    var op := FindOp(ops, name);
    if op.None? {
      return UnknownOperation;
    }
    var accepted := AcceptedArgs(op.value);
    var unexpected := Disallowed(args, accepted);
    if unexpected != {} {
      return Unexpected(unexpected);
    }
    assert args.Keys <= Set(DeclaredArgs(op.value)) by {
      assert forall a | a in args.Keys :: a !in unexpected;
    }
    var missing := MissingOf(op.value.required, args);
    if missing != {} {
      return Missing(missing);
    }
    assert forall a | a in op.value.required :: a in missing || !IsMissing(args, a);
    return Resolved(op.value);
  }

  /** The three checks leave no choice: one answer fits a call, so it is accepted exactly when none of them fails. */
  lemma AnswerIsUnique(ops: seq<Op>, name: string, args: map<string, Json>, r: Resolution, s: Resolution)
    requires Answers(ops, name, args, r) && Answers(ops, name, args, s)
    ensures r == s
  {
  }
}
