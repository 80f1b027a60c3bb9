/** Classes (gdtoolkit/common/ast.py, class Class): the file root or a
    `class_def` node, with its direct sub-classes and functions and the
    flattened views of every class and function nested in it. */
module Classes {
  import opened Results
  import opened ParseTrees
  import opened Statements
  import opened Functions

  /** A class. `name` is `None` for the synthetic class of the whole file. */
  datatype Class = Class(
    node: ParseNode,
    name: Option<string>,
    subClasses: seq<Class>,
    allSubClasses: seq<Class>,
    functions: seq<Function>,
    allFunctions: seq<Function>
  )

  /** What scanning the children of a class accumulates. */
  datatype Members = Members(
    subClasses: seq<Class>,
    allSubClasses: seq<Class>,
    functions: seq<Function>,
    allFunctions: seq<Function>
  )

  // ---------------------------------------------------------------------------
  // Reference walks over the parse tree
  // ---------------------------------------------------------------------------

  predicate IsTreeOfKind(node: ParseNode, kind: string) {
    node.Tree? && node.kind == kind
  }

  /** The `class_def` children, in order. */
  function DirectClassDefs(children: seq<ParseNode>): seq<ParseNode> {
    if children == [] then []
    else
      var last := children[|children| - 1];
      DirectClassDefs(children[..|children| - 1]) + if IsTreeOfKind(last, "class_def") then [last] else []
  }

  /** The `func_def` children, in order. */
  function DirectFuncDefs(children: seq<ParseNode>): seq<ParseNode> {
    if children == [] then []
    else
      var last := children[|children| - 1];
      DirectFuncDefs(children[..|children| - 1]) + if IsTreeOfKind(last, "func_def") then [last] else []
  }

  /** Every `class_def` reachable through `class_def` children, each before the
      classes nested in it, in source order. */
  function NestedClassDefs(children: seq<ParseNode>): seq<ParseNode>
    decreases children
  {
    if children == [] then []
    else
      var last := children[|children| - 1];
      NestedClassDefs(children[..|children| - 1]) +
        match last
        case Tree("class_def", grandChildren) => [last] + NestedClassDefs(grandChildren)
        case _ => []
  }

  /** Every `func_def` child, and every `func_def` of the classes reachable
      through `class_def` children, in source order. */
  function NestedFuncDefs(children: seq<ParseNode>): seq<ParseNode>
    decreases children
  {
    if children == [] then []
    else
      var last := children[|children| - 1];
      NestedFuncDefs(children[..|children| - 1]) +
        match last
        case Tree("class_def", grandChildren) => NestedFuncDefs(grandChildren)
        case Tree("func_def", _) => [last]
        case _ => []
  }

  function ClassNodes(classes: seq<Class>): (r: seq<ParseNode>)
    ensures |r| == |classes| && forall i :: 0 <= i < |classes| ==> r[i] == classes[i].node
  {
    seq(|classes|, i requires 0 <= i < |classes| => classes[i].node)
  }

  function FunctionNodes(functions: seq<Function>): (r: seq<ParseNode>)
    ensures |r| == |functions| && forall i :: 0 <= i < |functions| ==> r[i] == functions[i].statement.node
  {
    seq(|functions|, i requires 0 <= i < |functions| => functions[i].statement.node)
  }

  lemma ClassNodesAppend(a: seq<Class>, b: seq<Class>)
    ensures ClassNodes(a + b) == ClassNodes(a) + ClassNodes(b)
  {
    assert forall i :: 0 <= i < |a| + |b| ==> ClassNodes(a + b)[i] == (ClassNodes(a) + ClassNodes(b))[i];
  }

  lemma FunctionNodesAppend(a: seq<Function>, b: seq<Function>)
    ensures FunctionNodes(a + b) == FunctionNodes(a) + FunctionNodes(b)
  {
    assert forall i :: 0 <= i < |a| + |b| ==> FunctionNodes(a + b)[i] == (FunctionNodes(a) + FunctionNodes(b))[i];
  }

  /** The pre-order concatenation of `[c] + c.allSubClasses` over `subs`. */
  function FlattenClasses(subs: seq<Class>): seq<Class> {
    if subs == [] then []
    else
      var last := subs[|subs| - 1];
      FlattenClasses(subs[..|subs| - 1]) + [last] + last.allSubClasses
  }

  /** `a` can be obtained from `b` by deleting elements. */
  predicate IsSubsequence<T(==)>(a: seq<T>, b: seq<T>)
    decreases |b|
  {
    || a == []
    || (&& b != []
        && (|| (a[|a| - 1] == b[|b| - 1] && IsSubsequence(a[..|a| - 1], b[..|b| - 1]))
            || IsSubsequence(a, b[..|b| - 1])))
  }

  lemma {:induction false} SubsequenceOfLonger<T>(a: seq<T>, b: seq<T>, c: seq<T>)
    requires IsSubsequence(a, b)
    ensures IsSubsequence(a, b + c)
    decreases |c|
  {
    if c != [] {
      assert (b + c)[..|b + c| - 1] == b + c[..|c| - 1];
      SubsequenceOfLonger(a, b, c[..|c| - 1]);
    } else {
      assert b + c == b;
    }
  }

  lemma SubsequenceBothExtended<T>(a: seq<T>, b: seq<T>, x: T)
    requires IsSubsequence(a, b)
    ensures IsSubsequence(a + [x], b + [x])
  {
    assert (a + [x])[..|a|] == a;
    assert (b + [x])[..|b|] == b;
  }

  /** The four views of a class whose children are `children` agree with the
      parse tree: the direct sub-classes and functions are its `class_def` and
      `func_def` children, the flattened views are the nested walks, the
      flattened classes are the pre-order concatenation of the direct ones, the
      direct functions keep their order among all functions, and each function
      is the one built from its own node. */
  ghost predicate ViewsMatch(lookups: Lookups, m: Members, children: seq<ParseNode>) {
    && ClassNodes(m.subClasses) == DirectClassDefs(children)
    && ClassNodes(m.allSubClasses) == NestedClassDefs(children)
    && FunctionNodes(m.functions) == DirectFuncDefs(children)
    && FunctionNodes(m.allFunctions) == NestedFuncDefs(children)
    && m.allSubClasses == FlattenClasses(m.subClasses)
    && IsSubsequence(m.functions, m.allFunctions)
    && AllBuilt(lookups, m.functions)
    && AllBuilt(lookups, m.allFunctions)
  }

  /** A class as the constructor leaves it: built from a `start` or `class_def`
      tree, named by the lookup unless it is the file root, with views that
      agree with its children, and every class nested in it described alike. */
  ghost predicate ClassDescribes(lookups: Lookups, c: Class)
    decreases c
  {
    && c.node.Tree?
    && (c.node.kind == "start" || c.node.kind == "class_def")
    && (c.node.kind == "start" ==> c.name == None)
    && (c.node.kind == "class_def" ==> c.name.Some? && lookups.nameToken(c.node) == c.name)
    && ViewsMatch(lookups, MembersOf(c), c.node.children)
    && (forall s <- c.subClasses :: ClassDescribes(lookups, s))
    && (forall s <- c.allSubClasses :: ClassDescribes(lookups, s))
  }

  /** The members scanned from `children`: their views agree with the
      children, and every class among them is described. */
  ghost predicate Describes(lookups: Lookups, m: Members, children: seq<ParseNode>) {
    && ViewsMatch(lookups, m, children)
    && (forall s <- m.subClasses :: ClassDescribes(lookups, s))
    && (forall s <- m.allSubClasses :: ClassDescribes(lookups, s))
  }

  function MembersOf(c: Class): Members {
    Members(c.subClasses, c.allSubClasses, c.functions, c.allFunctions)
  }

  /** All these functions are the ones built from their own nodes. */
  ghost predicate AllBuilt(lookups: Lookups, fs: seq<Function>) {
    forall f <- fs :: BuildFunction(lookups, f.statement.node) == Success(f)
  }

  lemma AllBuiltAppend(lookups: Lookups, fs: seq<Function>, gs: seq<Function>)
    requires AllBuilt(lookups, fs) && AllBuilt(lookups, gs)
    ensures AllBuilt(lookups, fs + gs)
  {
    assert forall f <- fs + gs :: f in fs || f in gs;
  }

  lemma ClassNodesSingle(c: Class)
    ensures ClassNodes([c]) == [c.node]
  {
  }

  lemma DirectClassesStep(m: Members, children: seq<ParseNode>, subClass: Class)
    requires children != [] && IsTreeOfKind(children[|children| - 1], "class_def")
    requires subClass.node == children[|children| - 1]
    requires ClassNodes(m.subClasses) == DirectClassDefs(children[..|children| - 1])
    ensures ClassNodes(m.subClasses + [subClass]) == DirectClassDefs(children)
  {
    ClassNodesAppend(m.subClasses, [subClass]);
    ClassNodesSingle(subClass);
  }

  lemma NestedClassDefsLast(children: seq<ParseNode>)
    requires children != [] && IsTreeOfKind(children[|children| - 1], "class_def")
    ensures var last := children[|children| - 1];
            NestedClassDefs(children) == NestedClassDefs(children[..|children| - 1]) + ([last] + NestedClassDefs(last.children))
  {
  }

  lemma NestedClassesStep(m: Members, children: seq<ParseNode>, subClass: Class)
    requires children != [] && IsTreeOfKind(children[|children| - 1], "class_def")
    requires subClass.node == children[|children| - 1]
    requires ClassNodes(m.allSubClasses) == NestedClassDefs(children[..|children| - 1])
    requires ClassNodes(subClass.allSubClasses) == NestedClassDefs(subClass.node.children)
    ensures ClassNodes(m.allSubClasses + [subClass] + subClass.allSubClasses) == NestedClassDefs(children)
  {
    var all, nested := m.allSubClasses, subClass.allSubClasses;
    var last := children[|children| - 1];
    calc {
      ClassNodes(all + [subClass] + nested);
      { ClassNodesAppend(all + [subClass], nested); }
      ClassNodes(all + [subClass]) + ClassNodes(nested);
      { ClassNodesAppend(all, [subClass]); ClassNodesSingle(subClass); }
      NestedClassDefs(children[..|children| - 1]) + [last] + NestedClassDefs(last.children);
      { NestedClassDefsLast(children); }
      NestedClassDefs(children);
    }
  }

  lemma FlattenClassesStep(subs: seq<Class>, subClass: Class)
    ensures FlattenClasses(subs + [subClass]) == FlattenClasses(subs) + [subClass] + subClass.allSubClasses
  {
    assert (subs + [subClass])[..|subs|] == subs;
  }

  lemma FunctionViewsStepClass(lookups: Lookups, m: Members, children: seq<ParseNode>, subClass: Class)
    requires children != [] && IsTreeOfKind(children[|children| - 1], "class_def")
    requires subClass.node == children[|children| - 1]
    requires FunctionNodes(m.functions) == DirectFuncDefs(children[..|children| - 1])
    requires FunctionNodes(m.allFunctions) == NestedFuncDefs(children[..|children| - 1])
    requires IsSubsequence(m.functions, m.allFunctions)
    requires AllBuilt(lookups, m.allFunctions) && AllBuilt(lookups, subClass.allFunctions)
    requires FunctionNodes(subClass.allFunctions) == NestedFuncDefs(subClass.node.children)
    ensures FunctionNodes(m.functions) == DirectFuncDefs(children)
    ensures FunctionNodes(m.allFunctions + subClass.allFunctions) == NestedFuncDefs(children)
    ensures IsSubsequence(m.functions, m.allFunctions + subClass.allFunctions)
    ensures AllBuilt(lookups, m.allFunctions + subClass.allFunctions)
  {
    FunctionNodesAppend(m.allFunctions, subClass.allFunctions);
    SubsequenceOfLonger(m.functions, m.allFunctions, subClass.allFunctions);
    AllBuiltAppend(lookups, m.allFunctions, subClass.allFunctions);
  }

  lemma ViewsStepClass(lookups: Lookups, m: Members, children: seq<ParseNode>, subClass: Class)
    requires children != [] && IsTreeOfKind(children[|children| - 1], "class_def")
    requires ViewsMatch(lookups, m, children[..|children| - 1])
    requires subClass.node == children[|children| - 1]
    requires ViewsMatch(lookups, MembersOf(subClass), subClass.node.children)
    ensures ViewsMatch(lookups, Members(m.subClasses + [subClass], m.allSubClasses + [subClass] + subClass.allSubClasses,
                                       m.functions, m.allFunctions + subClass.allFunctions), children)
  {
    DirectClassesStep(m, children, subClass);
    NestedClassesStep(m, children, subClass);
    FlattenClassesStep(m.subClasses, subClass);
    FunctionViewsStepClass(lookups, m, children, subClass);
  }

  lemma ScanStepClass(lookups: Lookups, m: Members, children: seq<ParseNode>, subClass: Class)
    requires children != [] && IsTreeOfKind(children[|children| - 1], "class_def")
    requires Describes(lookups, m, children[..|children| - 1])
    requires subClass.node == children[|children| - 1]
    requires ClassDescribes(lookups, subClass)
    ensures Describes(lookups, Members(m.subClasses + [subClass], m.allSubClasses + [subClass] + subClass.allSubClasses,
                                      m.functions, m.allFunctions + subClass.allFunctions), children)
  {
    ViewsStepClass(lookups, m, children, subClass);
    forall s <- m.allSubClasses + [subClass] + subClass.allSubClasses
      ensures ClassDescribes(lookups, s)
    {
      assert s in m.allSubClasses || s == subClass || s in subClass.allSubClasses;
    }
    forall s <- m.subClasses + [subClass]
      ensures ClassDescribes(lookups, s)
    {
      assert s in m.subClasses || s == subClass;
    }
  }

  /** At a `func_def` child the class walks do not move and the function walks
      gain that child. */
  lemma FuncDefLast(children: seq<ParseNode>)
    requires children != [] && IsTreeOfKind(children[|children| - 1], "func_def")
    ensures var init, last := children[..|children| - 1], children[|children| - 1];
            && DirectClassDefs(children) == DirectClassDefs(init)
            && NestedClassDefs(children) == NestedClassDefs(init)
            && DirectFuncDefs(children) == DirectFuncDefs(init) + [last]
            && NestedFuncDefs(children) == NestedFuncDefs(init) + [last]
  {
  }

  lemma FunctionNodesSingle(fn: Function)
    ensures FunctionNodes([fn]) == [fn.statement.node]
  {
  }

  lemma ScanStepFunction(lookups: Lookups, m: Members, children: seq<ParseNode>, fn: Function)
    requires children != [] && IsTreeOfKind(children[|children| - 1], "func_def")
    requires Describes(lookups, m, children[..|children| - 1])
    requires fn.statement.node == children[|children| - 1]
    requires BuildFunction(lookups, fn.statement.node) == Success(fn)
    ensures Describes(lookups, Members(m.subClasses, m.allSubClasses, m.functions + [fn], m.allFunctions + [fn]), children)
  {
    FuncDefLast(children);
    FunctionNodesSingle(fn);
    FunctionNodesAppend(m.functions, [fn]);
    FunctionNodesAppend(m.allFunctions, [fn]);
    SubsequenceBothExtended(m.functions, m.allFunctions, fn);
    assert AllBuilt(lookups, [fn]);
    AllBuiltAppend(lookups, m.functions, [fn]);
    AllBuiltAppend(lookups, m.allFunctions, [fn]);
  }

  lemma ScanStepSkip(lookups: Lookups, m: Members, children: seq<ParseNode>)
    requires children != []
    requires !IsTreeOfKind(children[|children| - 1], "class_def")
    requires !IsTreeOfKind(children[|children| - 1], "func_def")
    requires Describes(lookups, m, children[..|children| - 1])
    ensures Describes(lookups, m, children)
  {
  }

  // ---------------------------------------------------------------------------
  // Construction (ast.py:88-121)
  // ---------------------------------------------------------------------------

  /** The class built from `node`: the file root (`start`) has no name; a
      `class_def` takes the name the lookup finds among its children; any
      other node cannot be a class. */
  function BuildClass(lookups: Lookups, node: ParseNode): (r: Result<Class>)
    decreases node, 1
    ensures node.Token? ==> r == Failure(MalformedNode)
    ensures node.Tree? && node.kind != "start" && node.kind != "class_def" ==>
              r == Failure(InvalidRootNode(node.kind))
    ensures node.Tree? && node.kind == "class_def" && lookups.nameToken(node).None? ==>
              r == Failure(LookupFailure("name"))
    ensures r.Success? <==>
              && node.Tree?
              && (node.kind == "start" || (node.kind == "class_def" && lookups.nameToken(node).Some?))
              && ScanChildren(lookups, node.children).Success?
    ensures node.Tree? && (node.kind == "start" || (node.kind == "class_def" && lookups.nameToken(node).Some?)) &&
            ScanChildren(lookups, node.children).Failure? ==>
              r == Failure(ScanChildren(lookups, node.children).error)
    ensures r.Success? ==>
              && r.value.node == node
              && (node.kind == "start" ==> r.value.name == None)
              && (node.kind == "class_def" ==> r.value.name.Some? && lookups.nameToken(node) == r.value.name)
              && ClassDescribes(lookups, r.value)
  {
    match node
    case Token(_) => Failure(MalformedNode)
    case Tree(kind, children) =>
      if kind == "start" then
        var m :- ScanChildren(lookups, children);
        Success(Class(node, None, m.subClasses, m.allSubClasses, m.functions, m.allFunctions))
      else if kind == "class_def" then
        match lookups.nameToken(node)
        case None => Failure(LookupFailure("name"))
        case Some(name) =>
          var m :- ScanChildren(lookups, children);
          Success(Class(node, Some(name), m.subClasses, m.allSubClasses, m.functions, m.allFunctions))
      else Failure(InvalidRootNode(kind))
  }

  /** The members found among `children`: tokens and kinds other than
      `class_def` and `func_def` are skipped; a nested class adds itself and its
      own flattened views, a function adds itself. */
  function ScanChildren(lookups: Lookups, children: seq<ParseNode>): (r: Result<Members>)
    decreases children, 0
    ensures r.Success? ==> Describes(lookups, r.value, children)
  {
    if children == [] then Success(Members([], [], [], []))
    else
      var init, last := children[..|children| - 1], children[|children| - 1];
      var m :- ScanChildren(lookups, init);
      match last
      case Token(_) =>
        ScanStepSkip(lookups, m, children);
        Success(m)
      case Tree(kind, _) =>
        if kind == "class_def" then
          var subClass :- BuildClass(lookups, last);
          ScanStepClass(lookups, m, children, subClass);
          Success(Members(m.subClasses + [subClass], m.allSubClasses + [subClass] + subClass.allSubClasses,
                          m.functions, m.allFunctions + subClass.allFunctions))
        else if kind == "func_def" then
          var fn :- BuildFunction(lookups, last);
          assert BuildStatement(last) == Success(fn.statement);
          ScanStepFunction(lookups, m, children, fn);
          Success(Members(m.subClasses, m.allSubClasses, m.functions + [fn], m.allFunctions + [fn]))
        else
          ScanStepSkip(lookups, m, children);
          Success(m)
  }

  /** Scanning succeeds exactly when every `class_def` child and every
      `func_def` child builds. */
  lemma {:induction false} ScanChildrenSucceeds(lookups: Lookups, children: seq<ParseNode>)
    ensures ScanChildren(lookups, children).Success? <==>
              forall c <- children ::
                && (IsTreeOfKind(c, "class_def") ==> BuildClass(lookups, c).Success?)
                && (IsTreeOfKind(c, "func_def") ==> BuildFunction(lookups, c).Success?)
  {
    if children != [] {
      var init, last := children[..|children| - 1], children[|children| - 1];
      assert forall c <- children :: c in init || c == last;
      assert forall c <- init :: c in children;
      assert last in children;
      ScanChildrenSucceeds(lookups, init);
    }
  }

  // ---------------------------------------------------------------------------
  // A described class is the class built from its node
  // ---------------------------------------------------------------------------

  lemma {:induction false} DirectClassDefsMembers(children: seq<ParseNode>)
    ensures forall x :: x in DirectClassDefs(children) <==> x in children && IsTreeOfKind(x, "class_def")
  {
    if children != [] {
      var init, last := children[..|children| - 1], children[|children| - 1];
      assert children == init + [last];
      DirectClassDefsMembers(init);
    }
  }

  lemma {:induction false} DirectFuncDefsMembers(children: seq<ParseNode>)
    ensures forall x :: x in DirectFuncDefs(children) <==> x in children && IsTreeOfKind(x, "func_def")
  {
    if children != [] {
      var init, last := children[..|children| - 1], children[|children| - 1];
      assert children == init + [last];
      DirectFuncDefsMembers(init);
    }
  }

  /** Functions are determined by their nodes. */
  lemma FunctionsByNodes(lookups: Lookups, fs: seq<Function>, gs: seq<Function>)
    requires FunctionNodes(fs) == FunctionNodes(gs)
    requires forall f <- fs :: BuildFunction(lookups, f.statement.node) == Success(f)
    requires forall g <- gs :: BuildFunction(lookups, g.statement.node) == Success(g)
    ensures fs == gs
  {
    forall i | 0 <= i < |fs|
      ensures fs[i] == gs[i]
    {
      assert FunctionNodes(fs)[i] == FunctionNodes(gs)[i];
      assert fs[i] in fs && gs[i] in gs;
    }
  }

  /** Two described classes of the same node are the same class. */
  lemma {:induction false} DescribedClassUnique(lookups: Lookups, c: Class, d: Class)
    requires ClassDescribes(lookups, c) && ClassDescribes(lookups, d) && c.node == d.node
    ensures c == d
    decreases c
  {
    assert |c.subClasses| == |d.subClasses|;
    forall i | 0 <= i < |c.subClasses|
      ensures c.subClasses[i] == d.subClasses[i]
    {
      assert ClassNodes(c.subClasses)[i] == ClassNodes(d.subClasses)[i];
      assert c.subClasses[i] in c.subClasses && d.subClasses[i] in d.subClasses;
      DescribedClassUnique(lookups, c.subClasses[i], d.subClasses[i]);
    }
    assert c.subClasses == d.subClasses;
    FunctionsByNodes(lookups, c.functions, d.functions);
    FunctionsByNodes(lookups, c.allFunctions, d.allFunctions);
  }

  /** A described class is exactly the class the constructor builds from its
      node: its name, its sub-classes and its functions included. */
  lemma {:induction false} DescribedClassIsBuilt(lookups: Lookups, c: Class)
    requires ClassDescribes(lookups, c)
    ensures BuildClass(lookups, c.node) == Success(c)
    decreases c
  {
    var children := c.node.children;
    DirectClassDefsMembers(children);
    DirectFuncDefsMembers(children);
    forall x <- children | IsTreeOfKind(x, "class_def")
      ensures BuildClass(lookups, x).Success?
    {
      assert x in ClassNodes(c.subClasses);
      var i :| 0 <= i < |c.subClasses| && ClassNodes(c.subClasses)[i] == x;
      assert c.subClasses[i] in c.subClasses;
      DescribedClassIsBuilt(lookups, c.subClasses[i]);
    }
    forall x <- children | IsTreeOfKind(x, "func_def")
      ensures BuildFunction(lookups, x).Success?
    {
      assert x in FunctionNodes(c.functions);
      var i :| 0 <= i < |c.functions| && FunctionNodes(c.functions)[i] == x;
      assert c.functions[i] in c.functions;
    }
    ScanChildrenSucceeds(lookups, children);
    DescribedClassUnique(lookups, BuildClass(lookups, c.node).value, c);
  }

  /** A described class followed by its nested classes: every one of them is
      described, their nodes are the class's node and then the nested
      `class_def` walk, and its functions are the nested `func_def` walk. */
  lemma ClassWithNested(lookups: Lookups, c: Class)
    requires ClassDescribes(lookups, c)
    ensures forall x <- [c] + c.allSubClasses :: ClassDescribes(lookups, x)
    ensures ClassNodes([c] + c.allSubClasses) == [c.node] + NestedClassDefs(c.node.children)
    ensures FunctionNodes(c.allFunctions) == NestedFuncDefs(c.node.children)
    ensures AllBuilt(lookups, c.allFunctions)
  {
    assert ViewsMatch(lookups, MembersOf(c), c.node.children);
    forall x <- [c] + c.allSubClasses
      ensures ClassDescribes(lookups, x)
    {
      assert x == c || x in c.allSubClasses;
    }
    calc {
      ClassNodes([c] + c.allSubClasses);
      { ClassNodesAppend([c], c.allSubClasses); ClassNodesSingle(c); }
      [c.node] + ClassNodes(c.allSubClasses);
      [c.node] + NestedClassDefs(c.node.children);
    }
  }

  // ---------------------------------------------------------------------------
  // Imperative construction, as the constructor runs it (ast.py:88-121)
  // ---------------------------------------------------------------------------

  lemma {:induction false} ScanPrefixFailure(lookups: Lookups, children: seq<ParseNode>, k: nat)
    requires k <= |children|
    requires ScanChildren(lookups, children[..k]).Failure?
    ensures ScanChildren(lookups, children) == ScanChildren(lookups, children[..k])
    decreases |children| - k
  {
    if k < |children| {
      var init := children[..|children| - 1];
      assert init[..k] == children[..k];
      ScanPrefixFailure(lookups, init, k);
    } else {
      assert children[..k] == children;
    }
  }

  /** Loads the members of a class from its children, one child at a time. */
  method LoadNodeChildren(lookups: Lookups, children: seq<ParseNode>) returns (r: Result<Members>)
    decreases children, 0
    ensures r == ScanChildren(lookups, children)
  {
    var subClasses: seq<Class> := [];
    var allSubClasses: seq<Class> := [];
    var functions: seq<Function> := [];
    var allFunctions: seq<Function> := [];
    for i := 0 to |children|
      invariant ScanChildren(lookups, children[..i]) == Success(Members(subClasses, allSubClasses, functions, allFunctions))
    {
      assert children[..i + 1][..i] == children[..i];
      var stmt := children[i];
      if stmt.Token? {
        continue;
      }
      if stmt.kind == "class_def" {
        var subClass := LoadClass(lookups, stmt);
        if subClass.Failure? {
          ScanPrefixFailure(lookups, children, i + 1);
          return Failure(subClass.error);
        }
        subClasses := subClasses + [subClass.value];
        allSubClasses := allSubClasses + [subClass.value] + subClass.value.allSubClasses;
        allFunctions := allFunctions + subClass.value.allFunctions;
      }
      if stmt.kind == "func_def" {
        var fn := LoadFunction(lookups, stmt);
        if fn.Failure? {
          ScanPrefixFailure(lookups, children, i + 1);
          return Failure(fn.error);
        }
        functions := functions + [fn.value];
        allFunctions := allFunctions + [fn.value];
      }
    }
    assert children[..|children|] == children;
    return Success(Members(subClasses, allSubClasses, functions, allFunctions));
  }

  /** The class built from `node`, as the constructor runs it. */
  method LoadClass(lookups: Lookups, node: ParseNode) returns (r: Result<Class>)
    decreases node, 1
    ensures r == BuildClass(lookups, node)
  {
    match node
    case Token(_) =>
      return Failure(MalformedNode);
    case Tree(kind, children) =>
      var name: Option<string> := None;
      if kind == "start" {
      } else if kind == "class_def" {
        var nameToken := lookups.nameToken(node);
        if nameToken.None? {
          return Failure(LookupFailure("name"));
        }
        name := Some(nameToken.value);
      } else {
        return Failure(InvalidRootNode(kind));
      }
      var members :- LoadNodeChildren(lookups, children);
      return Success(Class(node, name, members.subClasses, members.allSubClasses,
                           members.functions, members.allFunctions));
  }
}
