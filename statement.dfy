/** Statements (gdtoolkit/common/ast.py, class Statement): a statement node of
    the parse tree together with its direct sub-statements, chosen by a rule
    per statement kind, and the flattened list of all its descendants. */
module Statements {
  import opened Results
  import opened ParseTrees

  /** A statement and its nested statements. `allSubStatements` is derived:
      the builders set it to `Flatten(subStatements)` (see `WellFormed`). */
  datatype Statement = Statement(
    kind: string,
    node: ParseNode,
    subStatements: seq<Statement>,
    allSubStatements: seq<Statement>
  )

  // ---------------------------------------------------------------------------
  // The per-kind rule
  // ---------------------------------------------------------------------------

  /** Kinds the statement builder refuses: classes and property bodies have
      their own construction and never stand as plain statements. */
  predicate IsRejectedKind(kind: string) {
    kind == "class_def" || kind == "property_body_def"
  }

  /** Kinds whose body is their own children after a fixed-length header. */
  predicate HasDirectBody(kind: string) {
    kind == "func_def" || kind == "static_func_def" || kind == "while_stmt" || kind == "for_stmt"
  }

  /** That header: the function header or the loop condition, or for a `for`
      loop its variable and its iterable. */
  function HeaderLength(kind: string): nat {
    if kind == "for_stmt" then 2 else 1
  }

  /** Kinds whose children are branches, each holding statements. */
  predicate HasBranches(kind: string) {
    kind == "if_stmt" || kind == "match_stmt"
  }

  /** Leading children of a branch that are not statements: the condition of an
      `if` or `elif` branch, the pattern of a `match` branch; an `else` branch
      has none. */
  function BranchHeaderLength(kind: string, branchKind: string): nat {
    if kind == "match_stmt" || branchKind == "if_branch" || branchKind == "elif_branch" then 1 else 0
  }

  /** The parse nodes that become the direct sub-statements of `node`, as a
      table over its kind; other kinds are leaves. */
  function SubStatementNodes(node: ParseNode): (r: Result<seq<ParseNode>>)
    ensures node.Token? ==> r == Failure(MalformedNode)
    ensures node.Tree? && node.kind in {"class_def", "property_body_def"} ==>
              r == Failure(UnsupportedNodeKind(node.kind))
    ensures node.Tree? && node.kind in {"func_def", "static_func_def", "while_stmt"} ==>
              r == Success(Drop(node.children, 1))
    ensures node.Tree? && node.kind == "for_stmt" ==> r == Success(Drop(node.children, 2))
    ensures node.Tree? && node.kind in {"if_stmt", "match_stmt"} ==>
              && (r.Success? <==> forall b <- node.children :: b.Tree?)
              && r == BranchBodyNodes(node.kind, node.children)
    ensures node.Tree? && node.kind !in {"class_def", "property_body_def", "func_def", "static_func_def",
                                         "while_stmt", "for_stmt", "if_stmt", "match_stmt"} ==>
              r == Success([])
  {
    match node
    case Token(_) => Failure(MalformedNode)
    case Tree(kind, children) =>
      if IsRejectedKind(kind) then Failure(UnsupportedNodeKind(kind))
      else if HasDirectBody(kind) then Success(Drop(children, HeaderLength(kind)))
      else if HasBranches(kind) then BranchBodyNodes(kind, children)
      else Success([])
  }

  /** The statement nodes of a sequence of branches, branch after branch; a
      token in place of a branch is malformed. */
  function BranchBodyNodes(kind: string, branches: seq<ParseNode>): (r: Result<seq<ParseNode>>)
    ensures r.Success? <==> forall b <- branches :: b.Tree?
  {
    if branches == [] then Success([])
    else
      assert forall b <- branches[..|branches| - 1] :: b in branches;
      var init :- BranchBodyNodes(kind, branches[..|branches| - 1]);
      match branches[|branches| - 1]
      case Token(_) =>
        assert branches[|branches| - 1] in branches;
        Failure(MalformedNode)
      case Tree(branchKind, children) =>
        Success(init + Drop(children, BranchHeaderLength(kind, branchKind)))
  }

  lemma BranchBodyNodesLast(kind: string, branches: seq<ParseNode>)
    requires branches != []
    ensures var init, last := BranchBodyNodes(kind, branches[..|branches| - 1]), branches[|branches| - 1];
            BranchBodyNodes(kind, branches) ==
              if init.Failure? then Failure(init.error)
              else if last.Token? then Failure(MalformedNode)
              else Success(init.value + Drop(last.children, BranchHeaderLength(kind, last.kind)))
  {
  }

  /** The statement nodes of branches listed one after another are those of
      the first list followed by those of the second. */
  lemma {:induction false} BranchBodyNodesAppend(kind: string, a: seq<ParseNode>, b: seq<ParseNode>)
    ensures BranchBodyNodes(kind, a + b).Success? <==>
              BranchBodyNodes(kind, a).Success? && BranchBodyNodes(kind, b).Success?
    ensures BranchBodyNodes(kind, a + b).Success? ==>
              BranchBodyNodes(kind, a + b).value == BranchBodyNodes(kind, a).value + BranchBodyNodes(kind, b).value
    decreases |b|
  {
    if b == [] {
      assert a + b == a;
    } else {
      var b' := b[..|b| - 1];
      assert (a + b)[..|a + b| - 1] == a + b';
      assert (a + b)[|a + b| - 1] == b[|b| - 1];
      BranchBodyNodesAppend(kind, a, b');
      BranchBodyNodesLast(kind, a + b);
      BranchBodyNodesLast(kind, b);
    }
  }

  /** One branch: in an `if_stmt` the `if` and `elif` branches lose their
      condition (child 0) and any other branch is taken whole; in a
      `match_stmt` every branch loses its pattern (child 0). */
  lemma OneBranchBody(kind: string, branch: ParseNode)
    ensures branch.Token? ==> BranchBodyNodes(kind, [branch]) == Failure(MalformedNode)
    ensures branch.Tree? && (kind == "match_stmt" || branch.kind in {"if_branch", "elif_branch"}) ==>
              BranchBodyNodes(kind, [branch]) == Success(Drop(branch.children, 1))
    ensures branch.Tree? && kind != "match_stmt" && branch.kind !in {"if_branch", "elif_branch"} ==>
              BranchBodyNodes(kind, [branch]) == Success(branch.children)
  {
    assert [branch][..0] == [];
    if branch.Tree? {
      assert [] + Drop(branch.children, 0) == branch.children;
      assert [] + Drop(branch.children, 1) == Drop(branch.children, 1);
    }
  }

  // ---------------------------------------------------------------------------
  // Construction (ast.py:12-43)
  // ---------------------------------------------------------------------------

  /** The pre-order concatenation of `[s] + s.allSubStatements` over `subs`. */
  function Flatten(subs: seq<Statement>): (r: seq<Statement>)
    ensures |r| >= |subs|
    ensures r == [] <==> subs == []
  {
    if subs == [] then []
    else
      var last := subs[|subs| - 1];
      Flatten(subs[..|subs| - 1]) + [last] + last.allSubStatements
  }

  /** Every statement of the tree carries the flattening of its sub-statements. */
  ghost predicate WellFormed(s: Statement) {
    && s.allSubStatements == Flatten(s.subStatements)
    && forall c <- s.subStatements :: WellFormed(c)
  }

  /** The statement built from `node`: sub-statements are built left to right
      and the first failure aborts the build. */
  function BuildStatement(node: ParseNode): (r: Result<Statement>)
    decreases node, 0
    ensures node.Token? ==> r == Failure(MalformedNode)
    ensures node.Tree? && node.kind in {"class_def", "property_body_def"} ==>
              r == Failure(UnsupportedNodeKind(node.kind))
    ensures r.Success? ==> r.value.node == node && r.value.kind == node.kind && WellFormed(r.value)
  {
    match node
    case Token(_) => Failure(MalformedNode)
    case Tree(kind, children) =>
      if IsRejectedKind(kind) then Failure(UnsupportedNodeKind(kind))
      else
        var subs :- BuildSubStatements(kind, children);
        Success(Statement(kind, node, subs, Flatten(subs)))
  }

  /** The direct sub-statements of a tree of kind `kind` with these children. */
  function BuildSubStatements(kind: string, children: seq<ParseNode>): (r: Result<seq<Statement>>)
    decreases children, 1
    ensures r.Success? ==> forall s <- r.value :: WellFormed(s)
  {
    if HasDirectBody(kind) then BuildAll(Drop(children, HeaderLength(kind)))
    else if HasBranches(kind) then BuildBranches(kind, children)
    else Success([])
  }

  /** One statement per node, in order; the result is the failure of the first
      node that fails, if any. */
  function BuildAll(nodes: seq<ParseNode>): (r: Result<seq<Statement>>)
    decreases nodes, 0
    ensures r.Success? ==>
              && |r.value| == |nodes|
              && forall i :: 0 <= i < |nodes| ==> BuildStatement(nodes[i]) == Success(r.value[i])
    ensures r.Failure? ==>
              exists i :: 0 <= i < |nodes| && BuildStatement(nodes[i]) == Failure(r.error) &&
                          forall j :: 0 <= j < i ==> BuildStatement(nodes[j]).Success?
  {
    if nodes == [] then Success([])
    else
      var init :- BuildAll(nodes[..|nodes| - 1]);
      var last :- BuildStatement(nodes[|nodes| - 1]);
      Success(init + [last])
  }

  /** The statements of a sequence of branches, branch after branch. */
  function BuildBranches(kind: string, branches: seq<ParseNode>): (r: Result<seq<Statement>>)
    decreases branches, 0
    ensures r.Success? ==> forall s <- r.value :: WellFormed(s)
  {
    if branches == [] then Success([])
    else
      var init :- BuildBranches(kind, branches[..|branches| - 1]);
      match branches[|branches| - 1]
      case Token(_) => Failure(MalformedNode)
      case Tree(branchKind, children) =>
        var body :- BuildAll(Drop(children, BranchHeaderLength(kind, branchKind)));
        Success(init + body)
  }

  // ---------------------------------------------------------------------------
  // The builder follows the per-kind rule
  // ---------------------------------------------------------------------------

  /** Building succeeds exactly when every node succeeds. */
  lemma BuildAllSucceeds(nodes: seq<ParseNode>)
    ensures BuildAll(nodes).Success? <==>
              forall i :: 0 <= i < |nodes| ==> BuildStatement(nodes[i]).Success?
  {
  }

  lemma {:induction false} BuildAllAppend(a: seq<ParseNode>, b: seq<ParseNode>)
    ensures BuildAll(a + b).Success? <==> BuildAll(a).Success? && BuildAll(b).Success?
    ensures BuildAll(a + b).Success? ==> BuildAll(a + b).value == BuildAll(a).value + BuildAll(b).value
    decreases |b|
  {
    if b == [] {
      assert a + b == a;
    } else {
      var b' := b[..|b| - 1];
      assert (a + b)[..|a + b| - 1] == a + b';
      assert (a + b)[|a + b| - 1] == b[|b| - 1];
      BuildAllAppend(a, b');
    }
  }

  lemma {:induction false} BuildBranchesSelects(kind: string, branches: seq<ParseNode>)
    ensures BuildBranches(kind, branches).Success? <==>
              BranchBodyNodes(kind, branches).Success? && BuildAll(BranchBodyNodes(kind, branches).value).Success?
    ensures BuildBranches(kind, branches).Success? ==>
              BuildBranches(kind, branches) == BuildAll(BranchBodyNodes(kind, branches).value)
    decreases branches
  {
    if branches != [] {
      var init := branches[..|branches| - 1];
      BuildBranchesSelects(kind, init);
      match branches[|branches| - 1]
      case Token(_) =>
      case Tree(branchKind, children) =>
        var body := Drop(children, BranchHeaderLength(kind, branchKind));
        if BranchBodyNodes(kind, init).Success? {
          BuildAllAppend(BranchBodyNodes(kind, init).value, body);
        }
    }
  }

  /** The statement builder is the per-kind rule followed by one statement per
      selected node: it succeeds exactly when the rule and every selected node
      do, and then its sub-statements are those nodes' statements, in order. */
  lemma BuildStatementSelects(node: ParseNode)
    ensures BuildStatement(node).Success? <==>
              && SubStatementNodes(node).Success?
              && var nodes := SubStatementNodes(node).value;
             forall i :: 0 <= i < |nodes| ==> BuildStatement(nodes[i]).Success?
    ensures BuildStatement(node).Success? ==>
              var nodes := SubStatementNodes(node).value;
              var subs := BuildStatement(node).value.subStatements;
              && |subs| == |nodes|
              && forall i :: 0 <= i < |nodes| ==> BuildStatement(nodes[i]) == Success(subs[i])
  {
    match node
    case Token(_) =>
    case Tree(kind, children) =>
      if !IsRejectedKind(kind) {
        if HasBranches(kind) {
          BuildBranchesSelects(kind, children);
        }
        if SubStatementNodes(node).Success? {
          BuildAllSucceeds(SubStatementNodes(node).value);
        }
      }
  }

  /** The three-branch conditional: the conditions of the `if` and `elif`
      branches are left out, the `else` branch is taken whole. */
  lemma ConditionalSubStatements(cond1: ParseNode, body1: ParseNode, cond2: ParseNode, body2: ParseNode,
                                 body3: ParseNode)
    ensures SubStatementNodes(Tree("if_stmt", [Tree("if_branch", [cond1, body1]),
                                               Tree("elif_branch", [cond2, body2]),
                                               Tree("else_branch", [body3])]))
            == Success([body1, body2, body3])
  {
    var b1, b2, b3 := Tree("if_branch", [cond1, body1]), Tree("elif_branch", [cond2, body2]),
                      Tree("else_branch", [body3]);
    assert [b1][..0] == [] && [b1][0] == b1;
    assert BranchBodyNodes("if_stmt", [b1]).Success?;
    assert BranchBodyNodes("if_stmt", [b1]).value == Drop([cond1, body1], 1) == [body1];
    assert [b1, b2][..1] == [b1] && [b1, b2][1] == b2;
    assert BranchBodyNodes("if_stmt", [b1, b2]).Success?;
    assert BranchBodyNodes("if_stmt", [b1, b2]).value == [body1] + Drop([cond2, body2], 1) == [body1, body2];
    assert [b1, b2, b3][..2] == [b1, b2] && [b1, b2, b3][2] == b3;
    assert BranchBodyNodes("if_stmt", [b1, b2, b3]).Success?;
    assert BranchBodyNodes("if_stmt", [b1, b2, b3]).value == [body1, body2] + Drop([body3], 0);
    assert Drop([body3], 0) == [body3];
    assert [body1, body2] + [body3] == [body1, body2, body3];
    assert SubStatementNodes(Tree("if_stmt", [b1, b2, b3])) == BranchBodyNodes("if_stmt", [b1, b2, b3]);
  }

  // ---------------------------------------------------------------------------
  // The flattened list is the pre-order listing of all descendants
  // ---------------------------------------------------------------------------

  /** Number of statements in the tree rooted at `s`, counting `s`. */
  function TreeSize(s: Statement): nat
    decreases s
  {
    1 + ForestSize(s.subStatements)
  }

  function ForestSize(ss: seq<Statement>): nat
    decreases ss
  {
    if ss == [] then 0 else ForestSize(ss[..|ss| - 1]) + TreeSize(ss[|ss| - 1])
  }

  lemma {:induction false} ForestSizeAppend(a: seq<Statement>, b: seq<Statement>)
    ensures ForestSize(a + b) == ForestSize(a) + ForestSize(b)
    decreases |b|
  {
    if b == [] {
      assert a + b == a;
    } else {
      assert (a + b)[..|a + b| - 1] == a + b[..|b| - 1];
      ForestSizeAppend(a, b[..|b| - 1]);
    }
  }

  lemma ForestSizeCons(top: Statement, rest: seq<Statement>)
    ensures ForestSize([top] + rest) == TreeSize(top) + ForestSize(rest)
  {
    ForestSizeAppend([top], rest);
    assert [top][..0] == [];
  }

  /** Depth-first pre-order traversal with an explicit stack: visit the top,
      then push its sub-statements in front of what remains. */
  function PreOrderWalk(stack: seq<Statement>): seq<Statement>
    decreases ForestSize(stack)
  {
    if stack == [] then []
    else
      var top := stack[0];
      ForestSizeCons(top, stack[1..]);
      ForestSizeAppend(top.subStatements, stack[1..]);
      assert stack == [top] + stack[1..];
      [top] + PreOrderWalk(top.subStatements + stack[1..])
  }

  lemma {:induction false} PreOrderWalkLength(stack: seq<Statement>)
    ensures |PreOrderWalk(stack)| == ForestSize(stack)
    decreases ForestSize(stack)
  {
    if stack != [] {
      var top := stack[0];
      ForestSizeCons(top, stack[1..]);
      ForestSizeAppend(top.subStatements, stack[1..]);
      assert stack == [top] + stack[1..];
      PreOrderWalkLength(top.subStatements + stack[1..]);
    }
  }

  lemma {:induction false} FlattenAppend(a: seq<Statement>, b: seq<Statement>)
    ensures Flatten(a + b) == Flatten(a) + Flatten(b)
    decreases |b|
  {
    if b == [] {
      assert a + b == a;
    } else {
      assert (a + b)[..|a + b| - 1] == a + b[..|b| - 1];
      FlattenAppend(a, b[..|b| - 1]);
    }
  }

  /** One step of the walk: the top of the stack, then the walk of its
      sub-statements pushed in front of the rest. */
  lemma PreOrderWalkCons(top: Statement, rest: seq<Statement>)
    ensures PreOrderWalk([top] + rest) == [top] + PreOrderWalk(top.subStatements + rest)
  {
    assert ([top] + rest)[0] == top;
    assert ([top] + rest)[1..] == rest;
  }

  /** The flattening of one statement is that statement and its list. */
  lemma FlattenSingle(top: Statement)
    ensures Flatten([top]) == [top] + top.allSubStatements
  {
    assert [top][..0] == [];
  }

  lemma {:induction false} PreOrderWalkIsFlatten(stack: seq<Statement>)
    requires forall s <- stack :: WellFormed(s)
    ensures PreOrderWalk(stack) == Flatten(stack)
    decreases ForestSize(stack)
  {
    if stack != [] {
      var top, rest := stack[0], stack[1..];
      assert stack == [top] + rest;
      ForestSizeCons(top, rest);
      ForestSizeAppend(top.subStatements, rest);
      assert WellFormed(top);
      assert forall s <- top.subStatements + rest :: s in top.subStatements || s in rest;
      calc {
        PreOrderWalk(stack);
        { PreOrderWalkCons(top, rest); }
        [top] + PreOrderWalk(top.subStatements + rest);
        { PreOrderWalkIsFlatten(top.subStatements + rest); }
        [top] + Flatten(top.subStatements + rest);
        { FlattenAppend(top.subStatements, rest); }
        [top] + (top.allSubStatements + Flatten(rest));
        { FlattenSingle(top); }
        Flatten([top]) + Flatten(rest);
        { FlattenAppend([top], rest); }
        Flatten(stack);
      }
    }
  }

  /** `allSubStatements` lists every descendant once, depth first, each
      before its own descendants, in source order. */
  lemma AllSubStatementsArePreOrder(s: Statement)
    requires WellFormed(s)
    ensures PreOrderWalk([s]) == [s] + s.allSubStatements
  {
    PreOrderWalkIsFlatten([s]);
    FlattenSingle(s);
  }

  /** `allSubStatements` holds every statement of the tree below `s`. */
  lemma AllSubStatementsCount(s: Statement)
    requires WellFormed(s)
    ensures |s.allSubStatements| == TreeSize(s) - 1
  {
    AllSubStatementsArePreOrder(s);
    PreOrderWalkLength([s]);
    ForestSizeCons(s, []);
    assert [s] + [] == [s];
  }

  // ---------------------------------------------------------------------------
  // Imperative construction, as the constructor runs it (ast.py:12-43)
  // ---------------------------------------------------------------------------

  /** `[Statement(n) for n in nodes]`. */
  method LoadStatements(nodes: seq<ParseNode>) returns (r: Result<seq<Statement>>)
    decreases nodes, 0
    ensures r == BuildAll(nodes)
  {
    var built: seq<Statement> := [];
    for i := 0 to |nodes|
      invariant |built| == i
      invariant forall j :: 0 <= j < i ==> BuildStatement(nodes[j]) == Success(built[j])
    {
      var s := LoadStatement(nodes[i]);
      if s.Failure? {
        return Failure(s.error);
      }
      built := built + [s.value];
    }
    BuildAllSucceeds(nodes);
    var all := BuildAll(nodes).value;
    assert forall j :: 0 <= j < |nodes| ==> all[j] == built[j];
    assert all == built;
    return Success(built);
  }

  lemma {:induction false} BuildBranchesPrefixFailure(kind: string, branches: seq<ParseNode>, k: nat)
    requires k <= |branches|
    requires BuildBranches(kind, branches[..k]).Failure?
    ensures BuildBranches(kind, branches) == BuildBranches(kind, branches[..k])
    decreases |branches| - k
  {
    if k < |branches| {
      var init := branches[..|branches| - 1];
      assert init[..k] == branches[..k];
      BuildBranchesPrefixFailure(kind, init, k);
    } else {
      assert branches[..k] == branches;
    }
  }

  /** One more branch: a token fails, a tree adds the statements of its body. */
  lemma BuildBranchesExtend(kind: string, branches: seq<ParseNode>, j: nat, init: seq<Statement>)
    requires j < |branches| && BuildBranches(kind, branches[..j]) == Success(init)
    ensures branches[j].Token? ==> BuildBranches(kind, branches[..j + 1]) == Failure(MalformedNode)
    ensures branches[j].Tree? ==>
              var body := BuildAll(Drop(branches[j].children, BranchHeaderLength(kind, branches[j].kind)));
              BuildBranches(kind, branches[..j + 1]) == if body.Failure? then Failure(body.error) else Success(init + body.value)
  {
    assert branches[..j + 1][..j] == branches[..j];
  }

  /** The statements of the branches of an `if` or `match` statement, branch
      after branch, as the constructor accumulates them. */
  method LoadBranches(kind: string, branches: seq<ParseNode>) returns (r: Result<seq<Statement>>)
    decreases branches, 1
    ensures r == BuildBranches(kind, branches)
  {
    var subStatements: seq<Statement> := [];
    for j := 0 to |branches|
      invariant BuildBranches(kind, branches[..j]) == Success(subStatements)
    {
      BuildBranchesExtend(kind, branches, j, subStatements);
      match branches[j]
      case Token(_) =>
        BuildBranchesPrefixFailure(kind, branches, j + 1);
        return Failure(MalformedNode);
      case Tree(branchKind, children) =>
        var skip := if kind == "match_stmt" || branchKind == "if_branch" || branchKind == "elif_branch"
                    then 1 else 0;
        assert skip == BranchHeaderLength(kind, branchKind);
        var built := LoadStatements(Drop(children, skip));
        if built.Failure? {
          BuildBranchesPrefixFailure(kind, branches, j + 1);
          return Failure(built.error);
        }
        subStatements := subStatements + built.value;
    }
    assert branches[..|branches|] == branches;
    return Success(subStatements);
  }

  /** The direct sub-statements, by the kind of the statement. */
  method LoadSubStatements(kind: string, children: seq<ParseNode>) returns (r: Result<seq<Statement>>)
    decreases children, 2
    ensures r == BuildSubStatements(kind, children)
  {
    if kind == "func_def" || kind == "static_func_def" || kind == "while_stmt" {
      r := LoadStatements(Drop(children, 1));
    } else if kind == "if_stmt" {
      r := LoadBranches(kind, children);
    } else if kind == "for_stmt" {
      r := LoadStatements(Drop(children, 2));
    } else if kind == "match_stmt" {
      r := LoadBranches(kind, children);
    } else {
      r := Success([]);
    }
  }

  /** Appends `[s] + s.allSubStatements` for each direct sub-statement `s`. */
  method LoadAllSubStatements(subStatements: seq<Statement>) returns (allSubStatements: seq<Statement>)
    ensures allSubStatements == Flatten(subStatements)
  {
    allSubStatements := [];
    for i := 0 to |subStatements|
      invariant allSubStatements == Flatten(subStatements[..i])
    {
      assert subStatements[..i + 1][..i] == subStatements[..i];
      allSubStatements := allSubStatements + [subStatements[i]] + subStatements[i].allSubStatements;
    }
    assert subStatements[..|subStatements|] == subStatements;
  }

  /** The statement built from `node`: refused kinds fail first, then the
      sub-statements are loaded, then the flattened list of descendants. */
  method LoadStatement(node: ParseNode) returns (r: Result<Statement>)
    decreases node, 3
    ensures r == BuildStatement(node)
  {
    match node
    case Token(_) =>
      return Failure(MalformedNode);
    case Tree(kind, children) =>
      if kind == "class_def" || kind == "property_body_def" {
        return Failure(UnsupportedNodeKind(kind));
      }
      var subStatements :- LoadSubStatements(kind, children);
      var allSubStatements := LoadAllSubStatements(subStatements);
      return Success(Statement(kind, node, subStatements, allSubStatements));
  }
}
