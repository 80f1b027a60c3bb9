/** A worked file:

      class Foo:
          func bar(a, b):
              pass
      func baz():
          if true:
              pass
          else:
              pass

    as a parse tree, with lookups that read the name from the first token
    child and the named subtree from the second child. */
module SampleFile {
  import opened Results
  import opened ParseTrees
  import opened Statements
  import opened Functions
  import opened Classes
  import opened SyntaxTree

  const passStmt: ParseNode := Tree("pass_stmt", [])
  const barHeader: ParseNode :=
    Tree("func_header", [Token("bar"), Tree("func_args", [Tree("func_arg_regular", [Token("a")]),
                                                         Tree("func_arg_regular", [Token("b")])])])
  const barDef: ParseNode := Tree("func_def", [barHeader, passStmt])
  const fooDef: ParseNode := Tree("class_def", [Token("Foo"), barDef])
  const bazHeader: ParseNode := Tree("func_header", [Token("baz"), Tree("func_args", [])])
  const ifStmt: ParseNode :=
    Tree("if_stmt", [ifBranch, elseBranch])
  const bazDef: ParseNode := Tree("func_def", [bazHeader, ifStmt])
  const root: ParseNode := Tree("start", [fooDef, bazDef])

  function NameOf(node: ParseNode): Option<string> {
    if node.Tree? && |node.children| > 0 && node.children[0].Token? then Some(node.children[0].value) else None
  }

  function SecondChildOfKind(kind: string, node: ParseNode): Option<ParseNode> {
    if node.Tree? && |node.children| > 1 && node.children[1].Tree? && node.children[1].kind == kind
    then Some(node.children[1]) else None
  }

  const lookups: Lookups := Lookups(NameOf, SecondChildOfKind)

  const pass: Statement := Statement("pass_stmt", passStmt, [], [])

  lemma PassStatement()
    ensures BuildStatement(passStmt) == Success(pass)
    ensures BuildAll([passStmt]) == Success([pass])
  {
    assert !HasDirectBody("pass_stmt") && !HasBranches("pass_stmt") && !IsRejectedKind("pass_stmt");
    assert BuildSubStatements("pass_stmt", []) == Success([]);
    assert BuildStatement(passStmt) == Success(pass);
    assert [passStmt][..0] == [];
    assert BuildAll([passStmt]) == Success([] + [pass]);
    assert [] + [pass] == [pass];
  }

  const ifBranch: ParseNode := Tree("if_branch", [Tree("expr", [Token("true")]), passStmt])
  const elseBranch: ParseNode := Tree("else_branch", [passStmt])

  /** The `if` branch loses its condition, the `else` branch is taken whole. */
  lemma IfBranchBodies()
    ensures BranchBodyNodes("if_stmt", [ifBranch, elseBranch]) == Success([passStmt, passStmt])
  {
    assert "else_branch"[2] != "elif_branch"[2] && |"else_branch"| != |"if_branch"|;
    assert |"if_stmt"| != |"match_stmt"|;
    OneBranchBody("if_stmt", ifBranch);
    OneBranchBody("if_stmt", elseBranch);
    BranchBodyNodesAppend("if_stmt", [ifBranch], [elseBranch]);
    assert [ifBranch] + [elseBranch] == [ifBranch, elseBranch];
    assert Drop(ifBranch.children, 1) == [passStmt];
    assert BranchBodyNodes("if_stmt", [ifBranch]) == Success([passStmt]);
    assert BranchBodyNodes("if_stmt", [elseBranch]) == Success([passStmt]);
    assert [passStmt] + [passStmt] == [passStmt, passStmt];
  }

  lemma IfBranches()
    ensures BuildBranches("if_stmt", [ifBranch, elseBranch]) == Success([pass, pass])
  {
    IfBranchBodies();
    BuildBranchesSelects("if_stmt", [ifBranch, elseBranch]);
    PassStatement();
    BuildAllAppend([passStmt], [passStmt]);
    assert [passStmt] + [passStmt] == [passStmt, passStmt];
    assert [pass] + [pass] == [pass, pass];
  }

  lemma IfSubStatements()
    ensures BuildSubStatements("if_stmt", [ifBranch, elseBranch]) == Success([pass, pass])
  {
    assert "if_stmt"[0] != "func_def"[0] && "if_stmt"[0] != "static_func_def"[0];
    assert "if_stmt"[0] != "while_stmt"[0] && "if_stmt"[0] != "for_stmt"[0];
    assert !HasDirectBody("if_stmt") && HasBranches("if_stmt");
    IfBranches();
  }

  lemma FlattenTwoLeaves()
    ensures Flatten([pass, pass]) == [pass, pass]
  {
    assert [pass, pass][..1] == [pass] && [pass][..0] == [];
    assert Flatten([pass]) == [pass];
  }

  /** The conditional of `baz`: both `pass` statements are its sub-statements;
      the condition `true` is not a statement. */
  lemma IfStatement()
    ensures BuildStatement(ifStmt) == Success(Statement("if_stmt", ifStmt, [pass, pass], [pass, pass]))
  {
    assert "if_stmt"[0] != "class_def"[0] && "if_stmt"[0] != "property_body_def"[0];
    assert !IsRejectedKind("if_stmt");
    IfSubStatements();
    FlattenTwoLeaves();
  }


  const ifStatement: Statement := Statement("if_stmt", ifStmt, [pass, pass], [pass, pass])
  const bazStatement: Statement := Statement("func_def", bazDef, [ifStatement], [ifStatement, pass, pass])

  lemma BazStatement()
    ensures BuildStatement(bazDef) == Success(bazStatement)
  {
    IfStatement();
    assert Drop(bazDef.children, 1) == [ifStmt];
    assert [ifStmt][..0] == [];
    assert BuildAll([ifStmt]) == Success([] + [ifStatement]);
    assert [] + [ifStatement] == [ifStatement];
    assert [ifStatement][..0] == [];
    assert Flatten([ifStatement]) == [ifStatement, pass, pass];
  }

  /** `baz` lists four statements: itself, the conditional and the two `pass`
      statements of its branches. */
  lemma BazStatements()
    ensures BuildFunction(lookups, bazDef).Success?
    ensures BuildFunction(lookups, bazDef).value.statement == bazStatement
    ensures BuildFunction(lookups, bazDef).value.allStatements == [bazStatement, ifStatement, pass, pass]
    ensures BuildFunction(lookups, bazDef).value.name == "baz"
    ensures BuildFunction(lookups, bazDef).value.parameters == []
  {
    BazStatement();
    assert NameOf(bazHeader) == Some("baz");
    assert SecondChildOfKind("func_args", bazHeader) == Some(Tree("func_args", []));
    assert BuildParameters([]) == Success([]);
    assert [bazStatement] + bazStatement.allSubStatements == [bazStatement, ifStatement, pass, pass];
  }

  const barArgs: seq<ParseNode> := [Tree("func_arg_regular", [Token("a")]), Tree("func_arg_regular", [Token("b")])]

  lemma BarStatement()
    ensures BuildStatement(barDef) == Success(Statement("func_def", barDef, [pass], [pass]))
  {
    PassStatement();
    assert Drop(barDef.children, 1) == [passStmt];
    assert [pass][..0] == [];
    assert Flatten([pass]) == [] + [pass] + [];
    assert [] + [pass] + [] == [pass];
  }

  lemma BarParameters()
    ensures BuildParameters(barArgs) == Success([Parameter("a"), Parameter("b")])
  {
    assert barArgs[..1] == [barArgs[0]] && [barArgs[0]][..0] == [];
    assert BuildParameters([barArgs[0]]) == Success([] + [Parameter("a")]);
    assert [] + [Parameter("a")] == [Parameter("a")];
    assert BuildParameters(barArgs) == Success([Parameter("a")] + [Parameter("b")]);
    assert [Parameter("a")] + [Parameter("b")] == [Parameter("a"), Parameter("b")];
  }

  /** `bar` declares the parameters `a` and `b`. */
  lemma BarFunction()
    ensures BuildFunction(lookups, barDef).Success?
    ensures BuildFunction(lookups, barDef).value.name == "bar"
    ensures BuildFunction(lookups, barDef).value.parameters == [Parameter("a"), Parameter("b")]
  {
    BarStatement();
    BarParameters();
    assert barHeader == Tree("func_header", [Token("bar"), Tree("func_args", barArgs)]);
    assert NameOf(barHeader) == Some("bar");
    assert SecondChildOfKind("func_args", barHeader) == Some(Tree("func_args", barArgs));
  }

  lemma FooClass()
    ensures BuildClass(lookups, fooDef).Success?
    ensures BuildClass(lookups, fooDef).value.name == Some("Foo")
  {
    BarFunction();
    var children := fooDef.children;
    assert children[..1] == [Token("Foo")] && [Token("Foo")][..0] == [];
    assert ScanChildren(lookups, [Token("Foo")]).Success?;
    assert ScanChildren(lookups, children).Success?;
    assert NameOf(fooDef) == Some("Foo");
  }

  lemma RootClass()
    ensures BuildClass(lookups, root).Success?
  {
    FooClass();
    BazStatements();
    var children := root.children;
    assert children[..1] == [fooDef] && [fooDef][..0] == [];
    assert ScanChildren(lookups, [fooDef]).Success?;
    assert ScanChildren(lookups, children).Success?;
  }

  /** The reference walks of the file find `Foo`, then `bar` and `baz`. */
  lemma FileWalks()
    ensures NestedClassDefs(root.children) == [fooDef]
    ensures NestedFuncDefs(root.children) == [barDef, bazDef]
  {
    var fooChildren := fooDef.children;
    assert fooChildren[..1] == [Token("Foo")] && [Token("Foo")][..0] == [];
    assert root.children[..1] == [fooDef] && [fooDef][..0] == [];
    assert NestedClassDefs([Token("Foo")]) == [] && NestedClassDefs(fooChildren) == [];
    assert NestedClassDefs([fooDef]) == [] + ([fooDef] + []);
    assert NestedFuncDefs([Token("Foo")]) == [] && NestedFuncDefs(fooChildren) == [] + [barDef];
    assert NestedFuncDefs([fooDef]) == [] + [barDef];
    assert NestedFuncDefs(root.children) == [barDef] + [bazDef];
  }

  lemma FileBuilds()
    ensures BuildAst(lookups, root).Success?
  {
    RootClass();
  }

  lemma FileClassNodes()
    requires BuildAst(lookups, root).Success?
    ensures ClassNodes(BuildAst(lookups, root).value.allClasses) == [root, fooDef]
  {
    FileWalks();
  }

  /** The whole file has two classes, the unnamed root first and `Foo`
      second. */
  lemma FileClasses()
    ensures BuildAst(lookups, root).Success?
    ensures var t := BuildAst(lookups, root).value;
            && |t.allClasses| == 2
            && t.allClasses[0].node == root
            && t.allClasses[0].name == None
            && t.allClasses[1].node == fooDef
            && t.allClasses[1].name == Some("Foo")
  {
    FileBuilds();
    FileClassNodes();
    var classes := BuildAst(lookups, root).value.allClasses;
    AllClassesAreBuilt(lookups, root);
    assert classes[0] in classes && classes[1] in classes;
    FooClass();
  }

  /** The whole file has the functions `bar` and `baz`, in source order. */
  lemma FileFunctions()
    ensures BuildAst(lookups, root).Success?
    ensures var fs := BuildAst(lookups, root).value.allFunctions;
            && |fs| == 2
            && fs[0].name == "bar"
            && fs[0].parameters == [Parameter("a"), Parameter("b")]
            && fs[1].name == "baz"
            && fs[1].allStatements == [bazStatement, ifStatement, pass, pass]
  {
    RootClass();
    FileWalks();
    var fs := BuildAst(lookups, root).value.allFunctions;
    assert FunctionNodes(fs) == [barDef, bazDef];
    assert fs[0] in fs && fs[1] in fs;
    assert BuildFunction(lookups, barDef) == Success(fs[0]);
    assert BuildFunction(lookups, bazDef) == Success(fs[1]);
    BarFunction();
    BazStatements();
  }
}
