/** The abstract syntax tree of a whole file (gdtoolkit/common/ast.py, class
    AbstractSyntaxTree): the class of the file root, every class of the file
    with the root first, and every function of the file. */
module SyntaxTree {
  import opened Results
  import opened ParseTrees
  import opened Statements
  import opened Functions
  import opened Classes

  datatype AbstractSyntaxTree = AbstractSyntaxTree(
    rootClass: Class,
    allClasses: seq<Class>,
    allFunctions: seq<Function>
  )

  /** The tree built from a parse tree: its root must be a `start` or a
      `class_def` node, and every class and function in it must build. */
  function BuildAst(lookups: Lookups, parseTree: ParseNode): (r: Result<AbstractSyntaxTree>)
    ensures BuildClass(lookups, parseTree).Failure? ==> r == Failure(BuildClass(lookups, parseTree).error)
    ensures r.Success? <==> BuildClass(lookups, parseTree).Success?
    ensures r.Success? ==>
              && BuildClass(lookups, parseTree) == Success(r.value.rootClass)
              && r.value.allClasses == [r.value.rootClass] + r.value.rootClass.allSubClasses
              && r.value.allFunctions == r.value.rootClass.allFunctions
              && (forall c <- r.value.allClasses :: ClassDescribes(lookups, c))
              && parseTree.Tree?
              && |r.value.allClasses| >= 1
              && r.value.allClasses[0] == r.value.rootClass
              && ClassNodes(r.value.allClasses) == [parseTree] + NestedClassDefs(parseTree.children)
              && FunctionNodes(r.value.allFunctions) == NestedFuncDefs(parseTree.children)
              && forall f <- r.value.allFunctions :: BuildFunction(lookups, f.statement.node) == Success(f)
    ensures r.Success? && parseTree.kind == "start" ==> r.value.rootClass.name == None
  {
    var rootClass :- BuildClass(lookups, parseTree);
    ClassWithNested(lookups, rootClass);
    Success(AbstractSyntaxTree(rootClass, [rootClass] + rootClass.allSubClasses, rootClass.allFunctions))
  }

  /** Every class of the file is the class the constructor builds from its
      own node, with that node's name, sub-classes and functions. */
  lemma AllClassesAreBuilt(lookups: Lookups, parseTree: ParseNode)
    requires BuildAst(lookups, parseTree).Success?
    ensures forall c <- BuildAst(lookups, parseTree).value.allClasses :: BuildClass(lookups, c.node) == Success(c)
  {
    forall c <- BuildAst(lookups, parseTree).value.allClasses
      ensures BuildClass(lookups, c.node) == Success(c)
    {
      DescribedClassIsBuilt(lookups, c);
    }
  }

  /** The tree built from `parseTree`, as the constructor runs it. */
  method LoadAst(lookups: Lookups, parseTree: ParseNode) returns (r: Result<AbstractSyntaxTree>)
    ensures r == BuildAst(lookups, parseTree)
  {
    var rootClass :- LoadClass(lookups, parseTree);
    var allClasses := [rootClass] + rootClass.allSubClasses;
    var allFunctions := rootClass.allFunctions;
    return Success(AbstractSyntaxTree(rootClass, allClasses, allFunctions));
  }
}
