/**
 * The part of the browser's DOM the tooltip handlers consult: a tree of nodes,
 * which of them are elements, which carry `data-file-name-anchor`, and their
 * `data-comment` values. Nodes are numbered in document order, so a parent's
 * number is below its child's; walks up the tree terminate on that number.
 */
module Dom {
  import opened Types

  type Node = nat

  datatype Tree = Tree(
    parent: map<Node, Node>,
    elements: set<Node>,
    anchors: set<Node>,
    dataComment: map<Node, string>)

  /** Parents precede their children, and every anchor is an element. */
  predicate WellFormed(t: Tree) {
    && (forall n :: n in t.parent ==> t.parent[n] < n)
    && t.anchors <= t.elements
  }

  type Document = t: Tree | WellFormed(t) witness Tree(map[], {}, {}, map[])

  /** `a.contains(n)`: `a` is `n` itself or one of its ancestors. */
  predicate Contains(doc: Document, a: Node, n: Node)
    decreases n
  {
    a == n || (n in doc.parent && Contains(doc, a, doc.parent[n]))
  }

  /** `n.closest('[data-file-name-anchor]')`: the nearest anchor at or above `n`. */
  function Closest(doc: Document, n: Node): (r: Option<Node>)
    ensures r.Some? ==> r.value in doc.anchors && Contains(doc, r.value, n)
    ensures r.Some? ==> forall a :: a in doc.anchors && Contains(doc, a, n) ==> Contains(doc, a, r.value)
    ensures r.None? ==> forall a :: a in doc.anchors ==> !Contains(doc, a, n)
    decreases n
  {
    if n in doc.anchors then Some(n)
    else if n in doc.parent then Closest(doc, doc.parent[n])
    else None
  }

  /** `anchor.dataset.comment ?? null`. */
  function DataComment(doc: Document, n: Node): (r: Option<string>)
    ensures r.Some? <==> n in doc.dataComment
    ensures r.Some? ==> r.value == doc.dataComment[n]
  {
    if n in doc.dataComment then Some(doc.dataComment[n]) else None
  }

  /** An ancestor is never below its descendant in document order. */
  lemma {:induction false} ContainsOrder(doc: Document, a: Node, n: Node)
    requires Contains(doc, a, n)
    ensures a <= n
    decreases n
  {
    if a != n {
      ContainsOrder(doc, a, doc.parent[n]);
    }
  }

  /** The anchor found from a node is also the anchor found from any node between the two. */
  lemma {:induction false} ClosestFromBetween(doc: Document, m: Node, n: Node)
    requires Closest(doc, n).Some? && Contains(doc, m, n) && Contains(doc, Closest(doc, n).value, m)
    ensures Closest(doc, m) == Closest(doc, n)
    decreases n
  {
    if m != n {
      assert n !in doc.anchors by {
        if n in doc.anchors {
          ContainsOrder(doc, m, n);
          ContainsOrder(doc, n, m);
        }
      }
      ClosestFromBetween(doc, m, doc.parent[n]);
    }
  }
}
