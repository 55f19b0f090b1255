/** Structural checks on trees (guard.ts). */
module SyntaxGuard {
  import opened Options
  import opened Sequences
  import opened SyntaxTree
  import opened SyntaxValidator

  // ---------------------------------------------------------------- no error nodes

  predicate ValidateNodeStructure(node: Node) {
    if node.kind == "ERROR" || node.isError then false else ValidateAll(node.children)
  }

  predicate ValidateAll(nodes: seq<Node>) {
    nodes == [] || (ValidateNodeStructure(nodes[0]) && ValidateAll(nodes[1..]))
  }

  predicate Broken(node: Node) {
    node.kind == "ERROR" || node.isError
  }

  /** A tree is accepted exactly if no node anywhere in it is an error node. */
  lemma {:induction false} AcceptsIffNoneBroken(node: Node)
    ensures ValidateNodeStructure(node) <==> forall n | n in Preorder(node) :: !Broken(n)
  {
    AcceptsAllIffNoneBroken(node.children);
    assert node in Preorder(node);
  }

  lemma {:induction false} AcceptsAllIffNoneBroken(nodes: seq<Node>)
    ensures ValidateAll(nodes) <==> forall n | n in PreorderAll(nodes) :: !Broken(n)
  {
    if nodes == [] {
    } else {
      AcceptsIffNoneBroken(nodes[0]);
      AcceptsAllIffNoneBroken(nodes[1..]);
    }
  }

  /** An ERROR entry among the collected errors is an ERROR node among the nodes. */
  lemma {:induction false} ErrorEntries(nodes: seq<Node>)
    ensures (exists e :: e in Collected(nodes) && e.errorType == ERROR) <==> exists n :: n in nodes && n.kind == "ERROR"
  {
    if nodes == [] {
    } else {
      var front, last := nodes[..|nodes| - 1], nodes[|nodes| - 1];
      ErrorEntries(front);
      assert nodes == front + [last];
      if last.kind == "ERROR" {
        assert ErrorsAt(last)[0] in Collected(nodes);
      }
      if n :| n in front && n.kind == "ERROR" {
        assert n in nodes;
        var e :| e in Collected(front) && e.errorType == ERROR;
        assert e in Collected(nodes);
      }
    }
  }

  /**
   The recursive check and the cursor walk agree: a tree is accepted exactly if the walk reports no
   ERROR entry and no node claims isError without being an ERROR node.
   */
  lemma ValidatorAgreesWithGuard(node: Node)
    ensures ValidateNodeStructure(node) <==>
              (forall e | e in Errors(node) :: e.errorType != ERROR)
              && (forall n | n in Preorder(node) :: n.isError ==> n.kind == "ERROR")
  {
    AcceptsIffNoneBroken(node);
    ErrorsArePreorder(node);
    ErrorEntries(Preorder(node));
  }

  // ---------------------------------------------------------------- scope integrity

  /** The top-level nodes, by one pass of a cursor over the children of the root. */
  method GetTopLevelNodes(tree: Node) returns (nodes: seq<Node>)
    ensures nodes == tree.children
  {
    nodes := [];
    var cursor := new TreeCursor(tree);
    var more := cursor.GotoFirstChild();
    ghost var rest := tree.children;
    while more
      invariant fresh(cursor) && cursor.Valid() && nodes + rest == tree.children
      invariant more <==> rest != []
      invariant more ==> cursor.trail.Below? && rest == [cursor.focus] + cursor.trail.right
      decreases |rest|
    {
      Regroup(nodes, [cursor.focus], cursor.trail.right);
      nodes, rest := nodes + [cursor.focus], cursor.trail.right;
      more := cursor.GotoNextSibling();
    }
  }

  datatype Verdict = Ok | InvalidTree | InvalidStructure | ScopeRemoved(name: string) | ScopeModified(name: string)

  /** The last node carrying a name. */
  function LastNamed(nodes: seq<Node>, name: string): Option<Node> {
    if nodes == [] then None
    else if nodes[|nodes| - 1].name == name then Some(nodes[|nodes| - 1])
    else LastNamed(nodes[..|nodes| - 1], name)
  }

  /** The verdict on one original top-level node. */
  function Judge(node: Node, patched: seq<Node>, target: string): Verdict {
    if node.name == "" || node.name == target then Ok
    else
      match LastNamed(patched, node.name)
      case None => ScopeRemoved(node.name)
      case Some(m) => if m.text != node.text then ScopeModified(node.name) else Ok
  }

  /** The verdict on the first original node that fails. */
  function JudgeAll(nodes: seq<Node>, patched: seq<Node>, target: string): Verdict {
    if nodes == [] then Ok
    else if Judge(nodes[0], patched, target) != Ok then Judge(nodes[0], patched, target)
    else JudgeAll(nodes[1..], patched, target)
  }

  function Integrity(original: Option<Node>, patched: Option<Node>, target: string): Verdict {
    if original.None? || patched.None? then InvalidTree
    else if !ValidateNodeStructure(patched.value) then InvalidStructure
    else JudgeAll(original.value.children, patched.value.children, target)
  }

  method ValidateScopeIntegrity(original: Option<Node>, patched: Option<Node>, target: string)
    returns (verdict: Verdict)
    ensures verdict == Integrity(original, patched, target)
  {
    if original.None? || patched.None? {
      return InvalidTree;
    }
    if !ValidateNodeStructure(patched.value) {
      return InvalidStructure;
    }
    var origNodes := GetTopLevelNodes(original.value);
    var patchNodes := GetTopLevelNodes(patched.value);

    var patchMap: map<string, Node> := map[];
    for k := 0 to |patchNodes|
      invariant forall name :: name in patchMap <==> name != "" && LastNamed(patchNodes[..k], name).Some?
      invariant forall name | name in patchMap :: patchMap[name] == LastNamed(patchNodes[..k], name).value
    {
      assert patchNodes[..k + 1][..k] == patchNodes[..k];
      var node := patchNodes[k];
      if node.name != "" {
        patchMap := patchMap[node.name := node];
      }
    }
    assert patchNodes[..|patchNodes|] == patchNodes;

    for k := 0 to |origNodes|
      invariant JudgeAll(origNodes, patchNodes, target) == JudgeAll(origNodes[k..], patchNodes, target)
    {
      var node := origNodes[k];
      assert origNodes[k..][0] == node && origNodes[k..][1..] == origNodes[k + 1..];
      if node.name == "" {
        continue;
      }
      if node.name != target {
        if node.name !in patchMap {
          return ScopeRemoved(node.name);
        }
        if patchMap[node.name].text != node.text {
          return ScopeModified(node.name);
        }
      }
    }
    verdict := Ok;
  }

  predicate Kept(node: Node, patched: seq<Node>) {
    var m := LastNamed(patched, node.name);
    m.Some? && m.value.text == node.text
  }

  /** What an accepting verdict promises about every top-level name except the target. */
  lemma {:induction false} JudgeAllOk(nodes: seq<Node>, patched: seq<Node>, target: string)
    ensures JudgeAll(nodes, patched, target) == Ok <==>
              forall k | 0 <= k < |nodes| && nodes[k].name != "" && nodes[k].name != target :: Kept(nodes[k], patched)
  {
    if nodes == [] {
    } else {
      JudgeAllOk(nodes[1..], patched, target);
      assert forall k | 0 <= k < |nodes[1..]| :: nodes[1..][k] == nodes[k + 1];
      if JudgeAll(nodes, patched, target) == Ok {
        forall k | 0 <= k < |nodes| && nodes[k].name != "" && nodes[k].name != target ensures Kept(nodes[k], patched) {
          if k > 0 {
            assert Kept(nodes[1..][k - 1], patched);
          }
        }
      } else if JudgeAll(nodes[1..], patched, target) != Ok {
        var k :| 0 <= k < |nodes[1..]| && nodes[1..][k].name != "" && nodes[1..][k].name != target
                 && !Kept(nodes[1..][k], patched);
        assert !Kept(nodes[k + 1], patched);
      } else {
        assert !Kept(nodes[0], patched);
      }
    }
  }

  /** The last node of the name in a list, by position. */
  predicate LastOf(nodes: seq<Node>, name: string, node: Node) {
    exists j :: 0 <= j < |nodes| && nodes[j] == node && node.name == name
                && forall k | j < k < |nodes| :: nodes[k].name != name
  }

  lemma {:induction false} LastNamedMeans(nodes: seq<Node>, name: string)
    ensures LastNamed(nodes, name).None? <==> forall n | n in nodes :: n.name != name
    ensures LastNamed(nodes, name).Some? ==> LastOf(nodes, name, LastNamed(nodes, name).value)
  {
    if nodes == [] {
    } else {
      var front, last := nodes[..|nodes| - 1], nodes[|nodes| - 1];
      LastNamedMeans(front, name);
      if last.name != name && LastNamed(front, name).Some? {
        var node := LastNamed(front, name).value;
        var j :| 0 <= j < |front| && front[j] == node && node.name == name
                 && forall k | j < k < |front| :: front[k].name != name;
        assert nodes[j] == node;
      }
      assert nodes == front + [last];
    }
  }

  /** Some node of the patched tree is an error node. */
  ghost predicate SomeBroken(tree: Node) {
    exists n :: n in Preorder(tree) && Broken(n)
  }

  /**
   What each verdict says: a tree is missing; or the patched one, not the original, has an error node
   somewhere; or the first original node that was not kept is gone, or has another text.
   */
  lemma {:induction false} VerdictMeans(original: Option<Node>, patched: Option<Node>, target: string)
    ensures var v := Integrity(original, patched, target);
      && (v == InvalidTree <==> original.None? || patched.None?)
      && (v == InvalidStructure <==> original.Some? && patched.Some? && SomeBroken(patched.value))
      && (v.ScopeRemoved? || v.ScopeModified? ==>
            && original.Some? && patched.Some? && v.name != "" && v.name != target
            && (exists n :: n in original.value.children && n.name == v.name)
            && (v.ScopeRemoved? <==> forall n | n in patched.value.children :: n.name != v.name))
  {
    if original.Some? && patched.Some? {
      AcceptsIffNoneBroken(patched.value);
      JudgeNames(original.value.children, patched.value.children, target);
    }
  }

  lemma {:induction false} JudgeNames(nodes: seq<Node>, patched: seq<Node>, target: string)
    ensures var v := JudgeAll(nodes, patched, target);
      && !v.InvalidTree? && !v.InvalidStructure?
      && (v.ScopeRemoved? || v.ScopeModified? ==>
            && v.name != "" && v.name != target && (exists n :: n in nodes && n.name == v.name)
            && (v.ScopeRemoved? <==> forall n | n in patched :: n.name != v.name))
  {
    if nodes == [] {
    } else {
      LastNamedMeans(patched, nodes[0].name);
      JudgeNames(nodes[1..], patched, target);
      assert nodes == [nodes[0]] + nodes[1..];
    }
  }

  lemma {:induction false} LastNamedFinds(nodes: seq<Node>, k: nat)
    requires k < |nodes|
    ensures LastNamed(nodes, nodes[k].name).Some?
    ensures exists j ::
              k <= j < |nodes| && nodes[j] == LastNamed(nodes, nodes[k].name).value && nodes[j].name == nodes[k].name
  {
    if nodes[|nodes| - 1].name == nodes[k].name {
    } else {
      var front := nodes[..|nodes| - 1];
      LastNamedFinds(front, k);
      var j :| k <= j < |front| && front[j] == LastNamed(front, front[k].name).value && front[j].name == front[k].name;
      assert nodes[j] == LastNamed(nodes, nodes[k].name).value;
    }
  }

  /** Two top-level nodes with one name carry one text. */
  predicate SameTextSameName(nodes: seq<Node>, target: string) {
    forall i, j | 0 <= i < |nodes| && 0 <= j < |nodes| && nodes[i].name == nodes[j].name
                  && nodes[i].name != "" && nodes[i].name != target :: nodes[i].text == nodes[j].text
  }

  /**
   An unchanged tree is accepted exactly if it is well formed and top-level nodes that share a name
   other than the target also share their text: overloads make the check reject an unchanged file.
   */
  lemma UnchangedTreeAccepted(tree: Node, target: string)
    ensures Integrity(Some(tree), Some(tree), target) == Ok
            <==> ValidateNodeStructure(tree) && SameTextSameName(tree.children, target)
  {
    var nodes := tree.children;
    JudgeAllOk(nodes, nodes, target);
    if SameTextSameName(nodes, target) {
      forall k | 0 <= k < |nodes| && nodes[k].name != "" && nodes[k].name != target ensures Kept(nodes[k], nodes) {
        LastNamedFinds(nodes, k);
      }
    }
    if forall k | 0 <= k < |nodes| && nodes[k].name != "" && nodes[k].name != target :: Kept(nodes[k], nodes) {
      forall i, j | 0 <= i < |nodes| && 0 <= j < |nodes| && nodes[i].name == nodes[j].name
                    && nodes[i].name != "" && nodes[i].name != target ensures nodes[i].text == nodes[j].text {
        assert Kept(nodes[i], nodes) && Kept(nodes[j], nodes);
      }
    }
  }

  /** Two overloads of one name make the check reject an unchanged file. */
  lemma OverloadsRejected(target: string)
    requires target != "f"
    ensures var tree := Node("program", false, false, 0, 0, "", "",
                             [Node("method", false, false, 0, 0, "f(a)", "f", []),
                              Node("method", false, false, 1, 0, "f(b)", "f", [])]);
            Integrity(Some(tree), Some(tree), target) != Ok && ValidateNodeStructure(tree)
  {
    var one, two := Node("method", false, false, 0, 0, "f(a)", "f", []),
                    Node("method", false, false, 1, 0, "f(b)", "f", []);
    var tree := Node("program", false, false, 0, 0, "", "", [one, two]);
    UnchangedTreeAccepted(tree, target);
    assert tree.children[0].text != tree.children[1].text;
    assert ValidateAll([two]) && [one, two][1..] == [two];
  }
}
