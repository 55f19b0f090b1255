/** Collecting syntax errors with an iterative cursor walk (validator.ts). */
module SyntaxValidator {
  import opened Options
  import opened SyntaxTree

  datatype ErrorType = ERROR | MISSING

  datatype AstError = AstError(line: int, column: int, errorType: ErrorType, text: string)

  /** What one node contributes. */
  function ErrorsAt(node: Node): seq<AstError> {
    if node.kind == "ERROR" || node.isMissing then
      [AstError(node.row, node.column, if node.kind == "ERROR" then ERROR else MISSING, node.text)]
    else []
  }

  /** The reference: errors of the node, then of its children from left to right. */
  function Errors(node: Node): seq<AstError> {
    ErrorsAt(node) + ErrorsAll(node.children)
  }

  function ErrorsAll(nodes: seq<Node>): seq<AstError> {
    if nodes == [] then [] else Errors(nodes[0]) + ErrorsAll(nodes[1..])
  }

  /** The errors of the nodes of a list, in order. */
  function Collected(nodes: seq<Node>): seq<AstError> {
    if nodes == [] then [] else Collected(nodes[..|nodes| - 1]) + ErrorsAt(nodes[|nodes| - 1])
  }

  lemma Assoc<T>(a: seq<T>, b: seq<T>, c: seq<T>)
    ensures a + b + c == a + (b + c)
  {
  }

  lemma CollectedSnoc(nodes: seq<Node>, node: Node)
    ensures Collected(nodes + [node]) == Collected(nodes) + ErrorsAt(node)
  {
    assert (nodes + [node])[..|nodes|] == nodes;
  }

  lemma {:induction false} CollectedConcat(a: seq<Node>, b: seq<Node>)
    ensures Collected(a + b) == Collected(a) + Collected(b)
  {
    if b == [] {
      assert a + b == a;
    } else {
      var front, last := b[..|b| - 1], b[|b| - 1];
      calc {
        Collected(a + b);
        { assert b == front + [last]; Assoc(a, front, [last]); }
        Collected(a + front + [last]);
        { CollectedSnoc(a + front, last); }
        Collected(a + front) + ErrorsAt(last);
        { CollectedConcat(a, front); }
        Collected(a) + Collected(front) + ErrorsAt(last);
        { Assoc(Collected(a), Collected(front), ErrorsAt(last)); }
        Collected(a) + (Collected(front) + ErrorsAt(last));
        { CollectedSnoc(front, last); assert b == front + [last]; }
        Collected(a) + Collected(b);
      }
    }
  }

  /** The recursive list of errors is the preorder list filtered. */
  lemma {:induction false} ErrorsArePreorder(node: Node)
    ensures Collected(Preorder(node)) == Errors(node)
  {
    ErrorsAllArePreorder(node.children);
    CollectedConcat([node], PreorderAll(node.children));
    assert [node][..0] == [];
  }

  lemma {:induction false} ErrorsAllArePreorder(nodes: seq<Node>)
    ensures Collected(PreorderAll(nodes)) == ErrorsAll(nodes)
  {
    if nodes == [] {
    } else {
      ErrorsArePreorder(nodes[0]);
      ErrorsAllArePreorder(nodes[1..]);
      CollectedConcat(Preorder(nodes[0]), PreorderAll(nodes[1..]));
    }
  }

  // ---------------------------------------------------------------- what is reported

  /** A node that the parser could not place, or had to make up. */
  predicate Erroneous(node: Node) {
    node.kind == "ERROR" || node.isMissing
  }

  /** The entry points at the node, and says ERROR exactly if that is the node's kind. */
  predicate Shows(e: AstError, node: Node) {
    e.line == node.row && e.column == node.column && e.text == node.text
    && (e.errorType == ERROR <==> node.kind == "ERROR")
  }

  /** The nodes at these ascending positions are all the erroneous ones, and the entries show them in order. */
  ghost predicate ReportsAt(nodes: seq<Node>, pos: seq<nat>, errors: seq<AstError>) {
    && |pos| == |errors|
    && (forall i, j | 0 <= i < j < |pos| :: pos[i] < pos[j])
    && (forall k | 0 <= k < |pos| :: pos[k] < |nodes| && Shows(errors[k], nodes[pos[k]]))
    && (forall p: nat | p < |nodes| :: p in pos <==> Erroneous(nodes[p]))
  }

  ghost predicate Reports(nodes: seq<Node>, errors: seq<AstError>) {
    exists pos: seq<nat> :: ReportsAt(nodes, pos, errors)
  }

  lemma ReportsSnoc(nodes: seq<Node>, pos: seq<nat>, errors: seq<AstError>, node: Node)
    requires ReportsAt(nodes, pos, errors)
    ensures Erroneous(node) ==> ReportsAt(nodes + [node], pos + [|nodes|], errors + ErrorsAt(node))
    ensures !Erroneous(node) ==> ReportsAt(nodes + [node], pos, errors + ErrorsAt(node))
  {
    var all, next := nodes + [node], if Erroneous(node) then pos + [|nodes|] else pos;
    forall p: nat | p < |all| ensures p in next <==> Erroneous(all[p]) {
      if p < |nodes| {
        assert p in pos <==> Erroneous(nodes[p]);
      } else {
        assert p !in pos;
      }
    }
  }

  lemma {:induction false} CollectedReports(nodes: seq<Node>) returns (pos: seq<nat>)
    ensures ReportsAt(nodes, pos, Collected(nodes))
  {
    if nodes == [] {
      pos := [];
    } else {
      var front, last := nodes[..|nodes| - 1], nodes[|nodes| - 1];
      pos := CollectedReports(front);
      ReportsSnoc(front, pos, Collected(front), last);
      assert front + [last] == nodes;
      if Erroneous(last) {
        pos := pos + [|front|];
      }
    }
  }

  /** The recursive list reports exactly the erroneous nodes of the tree in preorder. */
  lemma ErrorsReport(node: Node)
    ensures Reports(Preorder(node), Errors(node))
    ensures Errors(node) == [] <==> forall n | n in Preorder(node) :: !Erroneous(n)
  {
    ErrorsArePreorder(node);
    var pos := CollectedReports(Preorder(node));
    if n :| n in Preorder(node) && Erroneous(n) {
      var p: nat :| p < |Preorder(node)| && Preorder(node)[p] == n;
      assert p in pos;
    }
    if Errors(node) != [] {
      assert pos[0] in pos;
    }
  }

  // ---------------------------------------------------------------- the walk

  /** What the walk still owes, standing on a node it has not visited yet. */
  function Ahead(focus: Node, trail: Trail): seq<Node> {
    Preorder(focus) + After(trail)
  }

  /** Stepping onto the first child, or to the next sibling, leaves exactly the rest ahead. */
  lemma StepRight(nodes: seq<Node>, up: Trail, parent: Node, left: seq<Node>)
    requires nodes != []
    ensures Ahead(nodes[0], Below(parent, left, nodes[1..], up)) == PreorderAll(nodes) + After(up)
  {
  }

  /** The inner loop: climbs until some ancestor has a next sibling, or past the root. */
  method Retrace(cursor: TreeCursor) returns (reachedRoot: bool)
    requires cursor.Valid() && (cursor.trail.Below? ==> cursor.trail.right == [])
    modifies cursor
    ensures cursor.Valid()
    ensures After(old(cursor.trail)) == if reachedRoot then [] else Ahead(cursor.focus, cursor.trail)
  {
    ghost var ahead := After(cursor.trail);
    reachedRoot := false;
    var retracing := true;
    while retracing
      invariant cursor.Valid()
      invariant retracing ==> !reachedRoot && ahead == After(cursor.trail)
      invariant retracing && cursor.trail.Below? ==> cursor.trail.right == []
      invariant !retracing ==> ahead == if reachedRoot then [] else Ahead(cursor.focus, cursor.trail)
      decreases retracing, cursor.trail
    {
      ghost var low := cursor.trail;
      var up := cursor.GotoParent();
      if !up {
        retracing := false;
        reachedRoot := true;
      } else {
        assert After(low) == After(cursor.trail);
        ghost var mid, at := cursor.trail, cursor.focus;
        var right := cursor.GotoNextSibling();
        if right {
          StepRight(mid.right, mid.up, mid.parent, mid.left + [at]);
          retracing := false;
        }
      }
    }
  }

  /**
   The walk visits the nodes exactly in preorder, so each node once, stops, and returns exactly
   the errors of the recursive definition: it reports exactly the erroneous nodes. No tree gives no errors.
   */
  method CheckSyntaxErrors(tree: Option<Node>) returns (errors: seq<AstError>, ghost visited: seq<Node>)
    ensures errors == if tree.Some? then Errors(tree.value) else []
    ensures visited == if tree.Some? then Preorder(tree.value) else []
    ensures Reports(visited, errors) && (errors == [] <==> forall n | n in visited :: !Erroneous(n))
  {
    errors, visited := [], [];
    if tree.None? {
      var pos := CollectedReports([]);
      return;
    }
    var cursor := new TreeCursor(tree.value);
    ghost var total, ahead := Preorder(tree.value), Preorder(tree.value);
    assert After(Top) == [] && total + [] == total && [] + total == total;
    var reachedRoot := false;
    while !reachedRoot
      invariant cursor.Valid() && fresh(cursor)
      invariant errors == Collected(visited) && visited + ahead == total
      invariant ahead == if reachedRoot then [] else Ahead(cursor.focus, cursor.trail)
      decreases |ahead|, !reachedRoot
    {
      var node := cursor.focus;
      ghost var trail, before := cursor.trail, errors;
      if node.kind == "ERROR" || node.isMissing {
        errors := errors + [AstError(node.row, node.column, if node.kind == "ERROR" then ERROR else MISSING,
                                       node.text)];
      }
      assert errors == before + ErrorsAt(node);
      CollectedSnoc(visited, node);
      Assoc([node], PreorderAll(node.children), After(trail));
      Assoc(visited, [node], PreorderAll(node.children) + After(trail));
      visited, ahead := visited + [node], PreorderAll(node.children) + After(trail);

      var down := cursor.GotoFirstChild();
      if down {
        StepRight(node.children, trail, node, []);
        continue;
      }

      assert ahead == After(trail);
      var next := cursor.GotoNextSibling();
      if next {
        StepRight(trail.right, trail.up, trail.parent, trail.left + [node]);
        continue;
      }

      reachedRoot := Retrace(cursor);
    }
    ErrorsArePreorder(tree.value);
    assert visited + [] == visited;
    ErrorsReport(tree.value);
  }
}
