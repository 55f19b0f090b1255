/** Syntax trees, their preorder, and the tree-sitter cursor as a zipper. */
module SyntaxTree {
  /** A parse tree node; `name` is what getNodeName finds, empty if nothing. */
  datatype Node = Node(kind: string, isMissing: bool, isError: bool, row: int, column: int, text: string,
                       name: string, children: seq<Node>)

  function Preorder(node: Node): (r: seq<Node>)
    ensures |r| > 0
  {
    [node] + PreorderAll(node.children)
  }

  function PreorderAll(nodes: seq<Node>): seq<Node> {
    if nodes == [] then [] else Preorder(nodes[0]) + PreorderAll(nodes[1..])
  }

  /** The way back to the root: the parent of the focus and the siblings on either side. */
  datatype Trail = Top | Below(parent: Node, left: seq<Node>, right: seq<Node>, up: Trail)

  /** The trail leads from the root down to the focus. */
  predicate OnPath(root: Node, trail: Trail, focus: Node) {
    match trail
    case Top => focus == root
    case Below(parent, left, right, up) =>
      parent.children == left + [focus] + right && OnPath(root, up, parent)
  }

  /** Everything that preorder still has to visit once the focus subtree is done. */
  function After(trail: Trail): seq<Node> {
    match trail
    case Top => []
    case Below(_, _, right, up) => PreorderAll(right) + After(up)
  }

  /** A cursor over a tree; moves that are impossible leave it where it is and answer false. */
  class TreeCursor {
    ghost const root: Node
    var focus: Node
    var trail: Trail

    ghost predicate Valid()
      reads this
    {
      OnPath(root, trail, focus)
    }

    constructor (root: Node)
      ensures Valid() && this.root == root && focus == root && trail == Top
    {
      this.root, focus, trail := root, root, Top;
    }

    method GotoFirstChild() returns (moved: bool)
      requires Valid()
      modifies this
      ensures Valid()
      ensures moved == (old(focus).children != [])
      ensures if moved then focus == old(focus).children[0]
                            && trail == Below(old(focus), [], old(focus).children[1..], old(trail))
              else focus == old(focus) && trail == old(trail)
    {
      moved := focus.children != [];
      if moved {
        assert focus.children == [] + [focus.children[0]] + focus.children[1..];
        focus, trail := focus.children[0], Below(focus, [], focus.children[1..], trail);
      }
    }

    method GotoNextSibling() returns (moved: bool)
      requires Valid()
      modifies this
      ensures Valid()
      ensures moved == (old(trail).Below? && old(trail).right != [])
      ensures if moved then focus == old(trail).right[0]
                            && trail == Below(old(trail).parent, old(trail).left + [old(focus)], old(trail).right[1..],
                                         old(trail).up)
              else focus == old(focus) && trail == old(trail)
    {
      moved := trail.Below? && trail.right != [];
      if moved {
        assert trail.parent.children == (trail.left + [focus]) + [trail.right[0]] + trail.right[1..];
        focus, trail := trail.right[0], Below(trail.parent, trail.left + [focus], trail.right[1..], trail.up);
      }
    }

    method GotoParent() returns (moved: bool)
      requires Valid()
      modifies this
      ensures Valid()
      ensures moved == old(trail).Below?
      ensures if moved then focus == old(trail).parent && trail == old(trail).up
              else focus == old(focus) && trail == old(trail)
    {
      moved := trail.Below?;
      if moved {
        focus, trail := trail.parent, trail.up;
      }
    }
  }
}
