/** The same rewrite as the source runs it: maps are objects on the heap, overwritten in place while the walk
    recurses. */
module SchemaRewriteInPlace {
  import opened JsonValue
  import opened SchemaRewrite

  class Node {
    var fields: map<string, Value>

    constructor (fields: map<string, Value>)
      ensures this.fields == fields
    {
      this.fields := fields;
    }
  }

  datatype Value = Scalar(json: Json) | List(items: seq<Value>) | Map(node: Node)

  // The shape of a document in the heap: which object holds which value, and the objects each part is made of.
  datatype Layout =
    | Leaf(json: Json)
    | Elements(items: seq<Layout>, nodes: set<Node>)
    | Fields(node: Node, children: map<string, Layout>, nodes: set<Node>)

  ghost function Nodes(l: Layout): set<Node> {
    if l.Leaf? then {} else l.nodes
  }

  ghost predicate Apart(l: Layout, m: Layout) {
    Nodes(l) !! Nodes(m)
  }

  /** Decoding makes a tree: no two parts of a document share an object. */
  ghost predicate IsTree(l: Layout) {
    match l
    case Leaf(_) => true
    case Elements(items, nodes) =>
      && (forall i | 0 <= i < |items| :: IsTree(items[i]) && Nodes(items[i]) <= nodes)
      && forall i, j | 0 <= i < j < |items| :: Apart(items[i], items[j])
    case Fields(node, children, nodes) =>
      && node in nodes
      && (forall k | k in children :: IsTree(children[k]) && Nodes(children[k]) <= nodes - {node})
      && forall k, m | k in children && m in children && k != m :: Apart(children[k], children[m])
  }

  /** The value is laid out this way in the heap. */
  ghost predicate Matches(l: Layout, v: Value)
    requires IsTree(l)
    reads Nodes(l)
    decreases l
  {
    match l
    case Leaf(json) => v == Scalar(json) && !json.Arr? && !json.Obj?
    case Elements(items, _) =>
      v.List? && |v.items| == |items| && forall i | 0 <= i < |items| :: Matches(items[i], v.items[i])
    case Fields(node, children, _) =>
      v == Map(node) && node.fields.Keys == children.Keys &&
      forall k | k in children :: Matches(children[k], node.fields[k])
  }

  ghost predicate IsLaidOut(l: Layout, v: Value)
    reads Nodes(l)
  {
    IsTree(l) && Matches(l, v)
  }

  /** The document that is laid out. */
  ghost function Document(l: Layout): Json {
    match l
    case Leaf(json) => json
    case Elements(items, _) => Arr(seq(|items|, i requires 0 <= i < |items| => Document(items[i])))
    case Fields(_, children, _) => Obj(map k | k in children :: Document(children[k]))
  }

  /** A bound on the depth of the document after the rewrite, which may put two objects in the place of a boolean. */
  ghost predicate Deep(l: Layout, h: nat)
    decreases l
  {
    match l
    case Leaf(_) => h >= 2
    case Elements(items, _) => h >= 1 && forall i | 0 <= i < |items| :: Deep(items[i], h - 1)
    case Fields(_, children, _) => h >= 1 && forall k | k in children :: Deep(children[k], h - 1)
  }

  lemma {:induction false} DeeperStill(l: Layout, h: nat, n: nat)
    requires Deep(l, h) && h <= n
    ensures Deep(l, n)
    decreases l
  {
    match l
    case Leaf(_) =>
    case Elements(items, _) =>
      forall i | 0 <= i < |items| ensures Deep(items[i], n - 1) {
        DeeperStill(items[i], h - 1, n - 1);
      }
    case Fields(_, children, _) =>
      forall k | k in children ensures Deep(children[k], n - 1) {
        DeeperStill(children[k], h - 1, n - 1);
      }
  }

  /** Every document has one. */
  lemma {:induction false} SomeDepth(l: Layout) returns (h: nat)
    ensures Deep(l, h)
    decreases l
  {
    match l
    case Leaf(_) => h := 2;
    case Elements(items, _) =>
      h := 1;
      for i := 0 to |items|
        invariant h >= 1 && forall j | 0 <= j < i :: Deep(items[j], h - 1)
      {
        var d := SomeDepth(items[i]);
        forall j | 0 <= j <= i ensures Deep(items[j], h + d) {
          DeeperStill(items[j], if j < i then h - 1 else d, h + d);
        }
        h := h + d + 1;
      }
    case Fields(_, children, _) =>
      h := 1;
      var left := children.Keys;
      while left != {}
        invariant left <= children.Keys
        invariant h >= 1 && forall k | k in children && k !in left :: Deep(children[k], h - 1)
      {
        var key :| key in left;
        left := left - {key};
        var d := SomeDepth(children[key]);
        forall k | k in children && k !in left ensures Deep(children[k], h + d) {
          DeeperStill(children[k], if k != key then h - 1 else d, h + d);
        }
        h := h + d + 1;
      }
  }

  // Whatever objects there are beyond the first are new.
  twostate predicate GrowsFreshly(before: set<Node>, new now: set<Node>) {
    forall n | n in now :: n in before || fresh(n)
  }

  method NewObjectFor(b: bool) returns (v: Value, ghost l: Layout)
    ensures IsLaidOut(l, v) && Document(l) == BooleanAsObject(b) && fresh(Nodes(l)) && Deep(l, 2)
  {
    var inner := new Node(map[]);
    ghost var empty := Fields(inner, map[], {inner});
    assert Document(empty).fields == map[];
    assert IsLaidOut(empty, Map(inner));
    if b {
      return Map(inner), empty;
    }
    var outer := new Node(map["not" := Map(inner)]);
    l := Fields(outer, map["not" := empty], {inner, outer});
    assert Document(l).fields == map["not" := Obj(map[])];
    return Map(outer), l;
  }

  method RewriteBooleanItems(v: Value, ghost l: Layout, ghost h: nat) returns (ghost l1: Layout)
    requires IsLaidOut(l, v) && Deep(l, h)
    modifies Nodes(l)
    ensures IsLaidOut(l1, v) && Document(l1) == Rewrite(Document(l))
    ensures GrowsFreshly(Nodes(l), Nodes(l1))
    decreases h, 3
  {
    match v
    case Scalar(_) => l1 := l;
    case List(items) => l1 := RewriteElements(items, l, h);
    case Map(node) => l1 := RewriteFields(node, l, h);
  }

  method RewriteElements(items: seq<Value>, ghost l: Layout, ghost h: nat) returns (ghost l1: Layout)
    requires IsLaidOut(l, List(items)) && Deep(l, h)
    modifies Nodes(l)
    ensures IsLaidOut(l1, List(items)) && Document(l1) == Rewrite(Document(l))
    ensures GrowsFreshly(Nodes(l), Nodes(l1))
    decreases h, 0
  {
    ghost var cur, nodes := l.items, l.nodes;
    for i := 0 to |items|
      invariant |cur| == |items|
      invariant forall j | 0 <= j < |items| :: IsLaidOut(cur[j], items[j])
      invariant forall j, k | 0 <= j < k < |items| :: Apart(cur[j], cur[k])
      invariant forall j | 0 <= j < |items| :: Nodes(cur[j]) <= nodes
      invariant forall j | i <= j < |items| :: cur[j] == l.items[j]
      invariant forall j | 0 <= j < i :: Document(cur[j]) == Rewrite(Document(l.items[j]))
      invariant GrowsFreshly(Nodes(l), nodes)
    {
      ghost var before := cur;
      label L:
      ghost var child := RewriteBooleanItems(items[i], cur[i], h - 1);
      forall j | 0 <= j < |items| && j != i
        ensures IsLaidOut(before[j], items[j]) && Apart(before[j], child)
      {
        assert old@L(IsLaidOut(before[j], items[j]));
        if j < i {
          assert Apart(before[j], before[i]);
        } else {
          assert Apart(before[i], before[j]);
        }
      }
      cur, nodes := cur[i := child], nodes + Nodes(child);
    }
    l1 := Elements(cur, nodes);
    assert Document(l1).items == Rewrite(Document(l)).items;
  }

  // The children of the object `node`, laid out apart from each other and from it.
  ghost predicate AreChildren(node: Node, cur: map<string, Layout>, nodes: set<Node>)
    reads node, nodes
  {
    && node in nodes
    && node.fields.Keys == cur.Keys
    && (forall k | k in cur :: Nodes(cur[k]) <= nodes - {node})
    && (forall k | k in cur :: IsLaidOut(cur[k], node.fields[k]))
    && forall k, m | k in cur && m in cur && k != m :: Apart(cur[k], cur[m])
  }

  predicate HasBooleanItems(node: Node)
    reads node
  {
    "items" in node.fields && node.fields["items"].Scalar? && node.fields["items"].json.Bool?
  }

  /** Overwrites the "items" entry with the object that means `b`. */
  method PutObject(node: Node, b: bool, ghost cur: map<string, Layout>, ghost nodes: set<Node>)
    returns (ghost l: Layout)
    requires AreChildren(node, cur, nodes) && "items" in cur
    modifies node
    ensures AreChildren(node, cur["items" := l], nodes + Nodes(l))
    ensures Document(l) == BooleanAsObject(b) && fresh(Nodes(l)) && Deep(l, 2)
  {
    var w;
    w, l := NewObjectFor(b);
    assert forall k | k in cur :: Apart(cur[k], l) && Apart(l, cur[k]);
    node.fields := node.fields["items" := w];
    forall k | k in cur && k != "items" ensures IsLaidOut(cur[k], node.fields[k]) {
      assert old(IsLaidOut(cur[k], node.fields[k])) && node !in Nodes(cur[k]);
    }
  }

  lemma HasBooleanItemsIff(node: Node, l: Layout)
    requires IsLaidOut(l, Map(node))
    ensures HasBooleanItems(node) <==> "items" in l.children && IsBooleanItems("items", Document(l.children["items"]))
    ensures HasBooleanItems(node) ==> l.children["items"] == Leaf(node.fields["items"].json)
  {
    if "items" in l.children {
      assert IsLaidOut(l.children["items"], node.fields["items"]);
    }
  }

  /** The "items" entry, when it is a boolean, becomes an object. */
  method ReplaceItems(node: Node, ghost l: Layout, ghost h: nat)
    returns (ghost cur: map<string, Layout>, ghost nodes: set<Node>)
    requires IsLaidOut(l, Map(node)) && Deep(l, h)
    modifies node
    ensures AreChildren(node, cur, nodes) && GrowsFreshly(Nodes(l), nodes)
    ensures cur.Keys == l.children.Keys && AreDone(l, cur, cur.Keys) && AreDeep(cur, cur.Keys, h - 1)
  {
    cur, nodes := l.children, l.nodes;
    assert AreChildren(node, cur, nodes);
    HasBooleanItemsIff(node, l);
    if HasBooleanItems(node) {
      ghost var written := PutObject(node, node.fields["items"].json.value, cur, nodes);
      WrittenIsReady(l, written, h);
      cur, nodes := cur["items" := written], nodes + Nodes(written);
    }
  }

  lemma WrittenIsReady(l: Layout, written: Layout, h: nat)
    requires l.Fields? && Deep(l, h) && "items" in l.children
    requires l.children["items"].Leaf? && l.children["items"].json.Bool?
    requires Document(written) == BooleanAsObject(l.children["items"].json.value) && Deep(written, 2)
    ensures var cur := l.children["items" := written];
      cur.Keys == l.children.Keys && AreDone(l, cur, cur.Keys) && AreDeep(cur, cur.Keys, h - 1)
  {
    assert Deep(l.children["items"], h - 1);
    DeeperStill(written, 2, h - 1);
  }

  method RewriteChild(node: Node, k: string, ghost cur: map<string, Layout>, ghost nodes: set<Node>, ghost h: nat)
    returns (ghost child: Layout)
    requires AreChildren(node, cur, nodes) && k in cur && Deep(cur[k], h)
    modifies Nodes(cur[k])
    ensures node.fields == old(node.fields) && AreChildren(node, cur[k := child], nodes + Nodes(child))
    ensures Document(child) == Rewrite(Document(cur[k])) && GrowsFreshly(Nodes(cur[k]), Nodes(child))
    decreases h, 4
  {
    child := RewriteBooleanItems(node.fields[k], cur[k], h);
    forall m | m in cur && m != k
      ensures IsLaidOut(cur[m], node.fields[m]) && Apart(cur[m], child)
    {
      assert old(IsLaidOut(cur[m], node.fields[m]));
      assert Apart(cur[m], cur[k]);
    }
  }

  lemma ReadyIsRewritten(before: Layout, now: Layout, k: string)
    requires IsReady(before, now, k)
    ensures Rewrite(Document(now)) == RewriteUnder(k, Document(before))
  {
    if IsBooleanItems(k, Document(before)) {
      WrittenObjectIsFixed(Document(before).value);
    }
  }

  /** The walk over an object's entries, in whatever order the map yields them, into the object just written as well. */
  method RewriteEntries(
    node: Node, ghost l: Layout, ghost cur0: map<string, Layout>, ghost nodes0: set<Node>, ghost h: nat)
    returns (ghost cur: map<string, Layout>, ghost nodes: set<Node>)
    requires l.Fields? && cur0.Keys == l.children.Keys && AreChildren(node, cur0, nodes0)
    requires AreDone(l, cur0, cur0.Keys) && AreDeep(cur0, cur0.Keys, h)
    modifies nodes0
    ensures cur.Keys == l.children.Keys && AreChildren(node, cur, nodes)
    ensures AreDone(l, cur, {}) && GrowsFreshly(nodes0, nodes)
    decreases h, 5
  {
    cur, nodes := cur0, nodes0;
    var left := node.fields.Keys;
    while left != {}
      invariant left <= cur.Keys == l.children.Keys
      invariant AreChildren(node, cur, nodes)
      invariant AreDone(l, cur, left) && AreDeep(cur, left, h)
      invariant GrowsFreshly(nodes0, nodes)
      decreases left
    {
      var k :| k in left;
      ghost var now := RewriteChild(node, k, cur, nodes, h);
      OneMoreDone(l, cur, left, k, now, h);
      left := left - {k};
      cur, nodes := cur[k := now], nodes + Nodes(now);
    }
  }

  method RewriteFields(node: Node, ghost l: Layout, ghost h: nat) returns (ghost l1: Layout)
    requires IsLaidOut(l, Map(node)) && Deep(l, h)
    modifies Nodes(l)
    ensures IsLaidOut(l1, Map(node)) && Document(l1) == Rewrite(Document(l))
    ensures GrowsFreshly(Nodes(l), Nodes(l1))
    decreases h, 2
  {
    ghost var cur, nodes := ReplaceItems(node, l, h);
    cur, nodes := RewriteEntries(node, l, cur, nodes, h - 1);
    l1 := Fields(node, cur, nodes);
    RewrittenChildren(l, l1);
  }

  ghost predicate AreDeep(cur: map<string, Layout>, left: set<string>, h: nat) {
    forall k | k in cur && k in left :: Deep(cur[k], h)
  }

  ghost predicate AreDone(l: Layout, cur: map<string, Layout>, left: set<string>)
    requires l.Fields? && cur.Keys == l.children.Keys
  {
    forall k | k in cur :: IsDone(l.children[k], cur[k], k, k in left)
  }

  lemma OneMoreDone(l: Layout, cur: map<string, Layout>, left: set<string>, k: string, now: Layout, h: nat)
    requires l.Fields? && cur.Keys == l.children.Keys && k in cur && k in left
    requires AreDone(l, cur, left) && AreDeep(cur, left, h) && Document(now) == Rewrite(Document(cur[k]))
    ensures AreDone(l, cur[k := now], left - {k}) && AreDeep(cur[k := now], left - {k}, h)
  {
    assert IsDone(l.children[k], cur[k], k, k in left);
    ReadyIsRewritten(l.children[k], cur[k], k);
  }

  lemma RewrittenChildren(l: Layout, l1: Layout)
    requires l.Fields? && l1.Fields? && l.children.Keys == l1.children.Keys
    requires AreDone(l, l1.children, {})
    ensures Document(l1) == Rewrite(Document(l))
  {
  }

  // A child that the walk has still to enter is as it was, unless it was replaced.
  ghost predicate IsReady(before: Layout, now: Layout, k: string) {
    if IsBooleanItems(k, Document(before)) then Document(now) == BooleanAsObject(Document(before).value)
    else now == before
  }

  ghost predicate IsDone(before: Layout, now: Layout, k: string, pending: bool) {
    if pending then IsReady(before, now, k) else Document(now) == RewriteUnder(k, Document(before))
  }
}
