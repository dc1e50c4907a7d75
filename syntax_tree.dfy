/** The syntax trees that tree-sitter produces, taken as input values: the grammar and the
    parser itself are not modelled. A node's `field` is the field name under which it hangs
    in its parent (`""` when none), so `childForFieldName` is a search of the children. */
module SyntaxTree {
  import opened Wrappers
  import opened Seqs

  /** A tree-sitter `SyntaxNode`: its type, its source text, its field name in the parent,
      its zero-based start position, and its children in document order. */
  datatype Node = Node(kind: string, text: string, field: string, row: nat, column: nat, children: seq<Node>)

  /** The first direct child of `n` whose type is `kind` (`findChildByType`). */
  function FindChildByType(n: Node, kind: string): (r: Option<Node>)
    ensures r.Some? ==> r.value in n.children && r.value.kind == kind
    ensures r.None? ==> forall i :: 0 <= i < |n.children| ==> n.children[i].kind != kind
  {
    var p := (c: Node) => c.kind == kind;
    FirstIsEarliest(n.children, p);
    First(n.children, p)
  }

  /** The first direct child of `n` under the field `f` (`childForFieldName`). */
  function ChildForFieldName(n: Node, f: string): (r: Option<Node>)
    ensures r.Some? ==> r.value in n.children && r.value.field == f
    ensures r.None? ==> forall i :: 0 <= i < |n.children| ==> n.children[i].field != f
  {
    var p := (c: Node) => c.field == f;
    FirstIsEarliest(n.children, p);
    First(n.children, p)
  }

  /** `node.child(0)`, or `node.children[0]`. */
  function FirstChild(n: Node): Option<Node>
  {
    if n.children == [] then None else Some(n.children[0])
  }

  /** The nearest node of type `kind` among `ancestors`, nearest first
      (`let p = node.parent; while (p && p.type !== kind) p = p.parent`). */
  function NearestOfKind(ancestors: seq<Node>, kind: string): (r: Option<Node>)
    ensures r.Some? ==> r.value in ancestors && r.value.kind == kind
    ensures r.None? ==> forall i :: 0 <= i < |ancestors| ==> ancestors[i].kind != kind
  {
    if ancestors == [] then None
    else if ancestors[0].kind == kind then Some(ancestors[0])
    else NearestOfKind(ancestors[1..], kind)
  }

  /** The parent of a node, given its ancestors nearest first. */
  function Parent(ancestors: seq<Node>): Option<Node>
  {
    if ancestors == [] then None else Some(ancestors[0])
  }

  /** The concatenation, in pre-order, of what `visit` yields at each node of the subtree of
      `n`, each node seen with its ancestors nearest first (a recursive walk that visits a
      node, then its children in order, pushing into one output list). */
  function PreOrder<T>(n: Node, ancestors: seq<Node>, visit: (Node, seq<Node>) -> seq<T>): seq<T>
    decreases n, 1
  {
    visit(n, ancestors) + PreOrderFrom(n, ancestors, visit, 0)
  }

  /** What `PreOrder` yields for the subtrees of the children of `n` from the `i`-th on. */
  function PreOrderFrom<T>(n: Node, ancestors: seq<Node>, visit: (Node, seq<Node>) -> seq<T>, i: nat): seq<T>
    decreases n, 0, |n.children| - i
  {
    if i >= |n.children| then []
    else PreOrder(n.children[i], [n] + ancestors, visit) + PreOrderFrom(n, ancestors, visit, i + 1)
  }

  /** One more child walked: the walk from child `i` on is that child's subtree, then the
      walk from child `i + 1` on. */
  lemma PreOrderFromStep<T>(n: Node, ancestors: seq<Node>, visit: (Node, seq<Node>) -> seq<T>, done: seq<T>, i: nat)
    requires i < |n.children|
    ensures done + PreOrderFrom(n, ancestors, visit, i) ==
            (done + PreOrder(n.children[i], [n] + ancestors, visit)) + PreOrderFrom(n, ancestors, visit, i + 1)
  {
  }

  /** A property of everything `visit` yields, wherever it is applied, holds of everything the
      walk yields. */
  lemma {:induction false} PreOrderAll<T>(n: Node, ancestors: seq<Node>, visit: (Node, seq<Node>) -> seq<T>, p: T -> bool)
    requires forall m: Node, a: seq<Node>, k :: 0 <= k < |visit(m, a)| ==> p(visit(m, a)[k])
    ensures forall k :: 0 <= k < |PreOrder(n, ancestors, visit)| ==> p(PreOrder(n, ancestors, visit)[k])
    decreases n, 1
  {
    PreOrderFromAll(n, ancestors, visit, p, 0);
  }

  lemma {:induction false} PreOrderFromAll<T>(n: Node, ancestors: seq<Node>, visit: (Node, seq<Node>) -> seq<T>, p: T -> bool, i: nat)
    requires forall m: Node, a: seq<Node>, k :: 0 <= k < |visit(m, a)| ==> p(visit(m, a)[k])
    ensures forall k :: 0 <= k < |PreOrderFrom(n, ancestors, visit, i)| ==> p(PreOrderFrom(n, ancestors, visit, i)[k])
    decreases n, 0, |n.children| - i
  {
    if i < |n.children| {
      PreOrderAll(n.children[i], [n] + ancestors, visit, p);
      PreOrderFromAll(n, ancestors, visit, p, i + 1);
    }
  }
}
