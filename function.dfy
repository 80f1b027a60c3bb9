/** Functions and their parameters (gdtoolkit/common/ast.py, classes Parameter
    and Function): a function is the statement built from a `func_def` node,
    plus its name, its parameters, and itself followed by every statement
    nested in it. */
module Functions {
  import opened Results
  import opened ParseTrees
  import opened Statements

  datatype Parameter = Parameter(name: string)

  /** The parameter of a parameter node: its name is the text of the node's
      first child, which must be a token. */
  function BuildParameter(node: ParseNode): (r: Result<Parameter>)
    ensures r.Success? <==> node.Tree? && |node.children| > 0 && node.children[0].Token?
    ensures r.Success? ==> r.value.name == node.children[0].value
  {
    match node
    case Token(_) => Failure(MalformedNode)
    case Tree(_, children) =>
      if |children| == 0 then Failure(MalformedNode)
      else
        match children[0]
        case Tree(_, _) => Failure(MalformedNode)
        case Token(value) => Success(Parameter(value))
  }

  /** The marker the grammar leaves for an optional comma after the last
      parameter; it names no parameter. */
  predicate IsTrailingComma(node: ParseNode) {
    node.Tree? && node.kind == "trailing_comma"
  }

  /** The children of a `func_args` subtree that are parameters, in source
      order: all but the trailing-comma markers. */
  function ParameterNodes(args: seq<ParseNode>): (r: seq<ParseNode>)
  {
    if args == [] then []
    else
      var last := args[|args| - 1];
      ParameterNodes(args[..|args| - 1]) + if IsTrailingComma(last) then [] else [last]
  }

  /** The parameter nodes are exactly the children that are not trailing-comma markers. */
  lemma {:induction false} ParameterNodesMembers(args: seq<ParseNode>)
    ensures forall n :: n in ParameterNodes(args) <==> n in args && !IsTrailingComma(n)
  {
    if args != [] {
      var init, last := args[..|args| - 1], args[|args| - 1];
      assert args == init + [last];
      ParameterNodesMembers(init);
    }
  }

  lemma {:induction false} ParameterNodesAppend(a: seq<ParseNode>, b: seq<ParseNode>)
    ensures ParameterNodes(a + b) == ParameterNodes(a) + ParameterNodes(b)
    decreases |b|
  {
    if b == [] {
      assert a + b == a;
    } else {
      assert (a + b)[..|a + b| - 1] == a + b[..|b| - 1];
      ParameterNodesAppend(a, b[..|b| - 1]);
    }
  }

  /** A trailing-comma marker contributes no parameter wherever it stands. */
  lemma TrailingCommaIgnored(before: seq<ParseNode>, comma: ParseNode, after: seq<ParseNode>)
    requires IsTrailingComma(comma)
    ensures ParameterNodes(before + [comma] + after) == ParameterNodes(before + after)
  {
    ParameterNodesAppend(before + [comma], after);
    ParameterNodesAppend(before, [comma]);
    ParameterNodesAppend(before, after);
    assert [comma][..0] == [];
    assert ParameterNodes([comma]) == [];
  }

  /** One parameter per parameter node of `args`, in order. Every child is
      first asked for its kind, so a token among them is malformed. */
  function BuildParameters(args: seq<ParseNode>): (r: Result<seq<Parameter>>)
    ensures r.Success? <==>
              (forall c <- args :: c.Tree?) && forall n <- ParameterNodes(args) :: BuildParameter(n).Success?
    ensures r.Success? ==>
              var nodes := ParameterNodes(args);
              && |r.value| == |nodes|
              && forall i :: 0 <= i < |nodes| ==> BuildParameter(nodes[i]) == Success(r.value[i])
  {
    if args == [] then Success([])
    else
      var init, last := args[..|args| - 1], args[|args| - 1];
      assert forall n <- args :: n in init || n == last;
      assert forall n <- init :: n in args;
      assert last in args;
      var parameters :- BuildParameters(init);
      if last.Token? then Failure(MalformedNode)
      else if last.kind == "trailing_comma" then Success(parameters)
      else
        var parameter :- BuildParameter(last);
        Success(parameters + [parameter])
  }

  /** `(a, b, )` declares exactly the parameters `a` and `b`. */
  lemma TrailingCommaExample(kindA: string, kindB: string)
    requires kindA != "trailing_comma" && kindB != "trailing_comma"
    ensures BuildParameters([Tree(kindA, [Token("a")]), Tree(kindB, [Token("b")]), Tree("trailing_comma", [])])
            == Success([Parameter("a"), Parameter("b")])
  {
    var pa, pb, comma := Tree(kindA, [Token("a")]), Tree(kindB, [Token("b")]), Tree("trailing_comma", []);
    assert BuildParameter(pa) == Success(Parameter("a"));
    assert BuildParameter(pb) == Success(Parameter("b"));
    assert [pa][..0] == [] && [pa][0] == pa;
    assert BuildParameters([pa]).Success?;
    assert BuildParameters([pa]).value == [] + [Parameter("a")] == [Parameter("a")];
    assert [pa, pb][..1] == [pa] && [pa, pb][1] == pb;
    assert BuildParameters([pa, pb]).Success?;
    assert BuildParameters([pa, pb]).value == [Parameter("a")] + [Parameter("b")] == [Parameter("a"), Parameter("b")];
    assert [pa, pb, comma][..2] == [pa, pb] && [pa, pb, comma][2] == comma;
  }

  /** A function: its statement view (the `func_def` statement), its name, its
      parameters, and `allStatements`, the function followed by every
      statement nested in it. */
  datatype Function = Function(
    statement: Statement,
    name: string,
    parameters: seq<Parameter>,
    allStatements: seq<Statement>
  )

  /** The `func_args` children found in the header of a function node, if the
      lookup finds a tree there. */
  function FuncArgs(lookups: Lookups, node: ParseNode): Option<seq<ParseNode>>
  {
    if node.Tree? && |node.children| > 0 then
      match lookups.treeAmong("func_args", node.children[0])
      case Some(Tree(_, args)) => Some(args)
      case _ => None
    else None
  }

  /** The function built from `node`: first the statement, then the name and
      the parameters found in the header (the first child). */
  function BuildFunction(lookups: Lookups, node: ParseNode): (r: Result<Function>)
    ensures BuildStatement(node).Failure? ==> r == Failure(BuildStatement(node).error)
    ensures r.Success? <==>
              && BuildStatement(node).Success?
              && |node.children| > 0
              && lookups.nameToken(node.children[0]).Some?
              && FuncArgs(lookups, node).Some?
              && BuildParameters(FuncArgs(lookups, node).value).Success?
    ensures BuildStatement(node).Success? && |node.children| == 0 ==> r == Failure(MalformedNode)
    ensures BuildStatement(node).Success? && |node.children| > 0 && lookups.nameToken(node.children[0]).None? ==>
              r == Failure(LookupFailure("name"))
    ensures BuildStatement(node).Success? && |node.children| > 0 && lookups.nameToken(node.children[0]).Some? ==>
              && (lookups.treeAmong("func_args", node.children[0]).None? ==> r == Failure(LookupFailure("func_args")))
              && (var args := lookups.treeAmong("func_args", node.children[0]);
                  args.Some? && args.value.Token? ==> r == Failure(MalformedNode))
    ensures r.Success? ==> BuildStatement(node) == Success(r.value.statement)
    ensures r.Success? ==>
              node.Tree? && |node.children| > 0 && lookups.nameToken(node.children[0]) == Some(r.value.name)
    ensures r.Success? ==>
              && FuncArgs(lookups, node).Some?
              && var nodes := ParameterNodes(FuncArgs(lookups, node).value);
                 && |r.value.parameters| == |nodes|
                 && forall i :: 0 <= i < |nodes| ==> BuildParameter(nodes[i]) == Success(r.value.parameters[i])
    ensures r.Success? ==>
              && |r.value.allStatements| == TreeSize(r.value.statement)
              && r.value.allStatements[0] == r.value.statement
              && r.value.allStatements == PreOrderWalk([r.value.statement])
  {
    var statement :- BuildStatement(node);
    if |node.children| == 0 then Failure(MalformedNode)
    else
      var header := node.children[0];
      match lookups.nameToken(header)
      case None => Failure(LookupFailure("name"))
      case Some(name) =>
        match lookups.treeAmong("func_args", header)
        case None => Failure(LookupFailure("func_args"))
        case Some(Token(_)) => Failure(MalformedNode)
        case Some(Tree(_, args)) =>
          var parameters :- BuildParameters(args);
          AllSubStatementsArePreOrder(statement);
          AllSubStatementsCount(statement);
          Success(Function(statement, name, parameters, [statement] + statement.allSubStatements))
  }

  /** The function built from `node`, as the constructor runs it. */
  method LoadFunction(lookups: Lookups, node: ParseNode) returns (r: Result<Function>)
    ensures r == BuildFunction(lookups, node)
  {
    var statement :- LoadStatement(node);
    var allStatements := [statement] + statement.allSubStatements;
    if |node.children| == 0 {
      return Failure(MalformedNode);
    }
    var header := node.children[0];
    var nameToken := lookups.nameToken(header);
    if nameToken.None? {
      return Failure(LookupFailure("name"));
    }
    var funcArgs := lookups.treeAmong("func_args", header);
    if funcArgs.None? {
      return Failure(LookupFailure("func_args"));
    }
    if funcArgs.value.Token? {
      return Failure(MalformedNode);
    }
    var parameters :- BuildParameters(funcArgs.value.children);
    return Success(Function(statement, nameToken.value, parameters, allStatements));
  }
}
