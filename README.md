# The abstract syntax tree of gdtoolkit, in Dafny

gdtoolkit's linter and formatter do not walk the raw Lark parse tree of a
GDScript file. They use a small abstract syntax tree built from it by
`gdtoolkit/common/ast.py`:

- **Statement**: a statement node with its direct sub-statements. One rule per
  statement kind picks which children are sub-statements. The statement also
  keeps the pre-order list of all its descendants (`all_sub_statements`).
- **Parameter**: the name of one function parameter.
- **Function**: a `func_def` statement plus its name and its parameters, with
  trailing-comma markers dropped. It also has `all_statements`, the function
  followed by every statement nested in it.
- **Class**: the synthetic class of the file root (`start`) or a `class_def`.
  It holds its direct sub-classes and functions, plus the flattened lists of
  every class and function nested in it.
- **AbstractSyntaxTree**: the root class, every class of the file (root first)
  and every function of the file.

This project models that construction.

- **Parse nodes** are a datatype, `ParseTrees.ParseNode`: a tree with a kind and
  children, or a token with a value.
- **The two lookup helpers** the module imports (`find_name_token_among_children`
  and `find_tree_among_children`) are the function-valued fields of
  `ParseTrees.Lookups`.
- **Every Python exception** on the construction path becomes a
  `Results.Failure`.
- **Pure builders.** Each constructor is a pure function (`BuildStatement`,
  `BuildFunction`, `BuildClass`, `BuildAst`). Each follows the Python
  evaluation order, so the first error met is the one reported.
- **Loaders.** The loops of the constructors are methods (`LoadStatement`,
  `LoadNodeChildren`, …) with loop invariants. Each is proved to return exactly
  what its builder returns.
- **Reference definitions.** The builders are related to independent
  definitions:
  - the per-kind table of sub-statement nodes;
  - a work-list pre-order walk of a statement tree;
  - the filter of parameter nodes;
  - walks of the parse tree that collect `class_def` and `func_def` nodes.
- **Worked example.** `SampleFile` builds the tree of a file with a class
  `Foo` holding `bar(a, b)`, and a function `baz` holding an if/else.

Files:

- `results.dfy`: `Option`, `Error` and `Result`.
- `parse_tree.dfy`: `ParseNode`, `Lookups` and the slice helper `Drop`.
- `statement.dfy`: statements, the flattened list and its pre-order
  characterisation.
- `function.dfy`: parameters and functions.
- `class.dfy`: classes.
- `syntax_tree.dfy`: the whole-file tree.
- `sample_file.dfy`: the worked file.

## Model

| member | source | states |
|---|---|---|
| Statements.SubStatementNodes | gdtoolkit/common/ast.py:20-39 | The sub-statement nodes, kind by kind. A token is malformed. `class_def` and `property_body_def` are refused. `func_def`, `static_func_def` and `while_stmt` drop child 0. `for_stmt` drops children 0-1. `if_stmt` and `match_stmt` succeed exactly when every branch is a tree, and their nodes are the branch bodies. Every other kind is a leaf. |
| Statements.BranchBodyNodes | gdtoolkit/common/ast.py:27-32 | Collecting branch bodies succeeds exactly when no branch is a token. |
| Statements.OneBranchBody | gdtoolkit/common/ast.py:27-32 | The body of one branch. A token is malformed. A `match_stmt` branch, an `if_branch` and an `elif_branch` drop their condition, child 0. Any other branch, such as `else_branch`, is taken whole. |
| Statements.BranchBodyNodesAppend | gdtoolkit/common/ast.py:27-32 | Collecting the bodies of two runs of branches succeeds exactly when both runs succeed. The result is the first run's bodies followed by the second's. With OneBranchBody this gives the bodies of any branch list, branch by branch, in order. |
| Statements.Flatten | gdtoolkit/common/ast.py:40-43 | The flattened list is at least as long as the direct list. It is empty exactly when there are no sub-statements. |
| Statements.BuildStatement | gdtoolkit/common/ast.py:12-43 | A token fails as malformed. `class_def` and `property_body_def` always fail and never produce a statement. A built statement has the node's kind and node, and every statement in it carries the flattening of its own sub-statements. |
| Statements.BuildSubStatements | gdtoolkit/common/ast.py:25-39 | Every built sub-statement is well formed, i.e. its flattened list is the flattening of its children. |
| Statements.BuildAll | gdtoolkit/common/ast.py:26 | The list comprehension: on success there is one statement per node, each the statement of that node. On failure the error is that of the first failing node, and every earlier node succeeds. |
| Statements.BuildBranches | gdtoolkit/common/ast.py:27-32 | The statements of the branches are all well formed. |
| Statements.BuildAllAppend | gdtoolkit/common/ast.py:30-32 | Building a concatenation succeeds exactly when both parts do, and gives the concatenation of their statements. |
| Statements.BuildBranchesSelects | gdtoolkit/common/ast.py:27-32 | Building the branches succeeds exactly when the branch-body table and every selected node succeed. The result equals building the selected nodes in order. |
| Statements.BuildStatementSelects | gdtoolkit/common/ast.py:20-39 | Building a statement succeeds exactly when the per-kind table and every selected node succeed. The sub-statements are then, index by index, the statements of those nodes. |
| Statements.ConditionalSubStatements | gdtoolkit/common/ast.py:27-32 | For an if/elif/else statement, the conditions of the `if` and `elif` branches are dropped and the `else` branch is taken whole, in branch order. |
| Statements.PreOrderWalkLength | gdtoolkit/common/ast.py:40-43 | The work-list walk visits exactly the statements counted by the tree sizes. |
| Statements.FlattenAppend | gdtoolkit/common/ast.py:40-43 | Flattening distributes over concatenation of sub-statement lists. |
| Statements.PreOrderWalkCons | gdtoolkit/common/ast.py:40-43 | One step of the work-list walk: the top statement comes first, and its sub-statements are visited before the rest of the stack. |
| Statements.PreOrderWalkIsFlatten | gdtoolkit/common/ast.py:40-43 | On well-formed statements, the pre-order work-list walk equals the flattening. |
| Statements.AllSubStatementsArePreOrder | gdtoolkit/common/ast.py:40-43 | A statement followed by `allSubStatements` is the pre-order listing of its tree. |
| Statements.AllSubStatementsCount | gdtoolkit/common/ast.py:40-43 | `allSubStatements` has one entry per descendant, i.e. the tree size minus one. |
| Statements.LoadStatements | gdtoolkit/common/ast.py:26 | The loop building one statement per node returns exactly the comprehension's result, including its first failure. |
| Statements.BuildBranchesExtend | gdtoolkit/common/ast.py:28-32 | Taking one more branch: a token fails as malformed. A tree contributes the statements of its body nodes after those already built. |
| Statements.LoadBranches | gdtoolkit/common/ast.py:28-32 | The loop over branches returns exactly the branch builder's result. |
| Statements.LoadSubStatements | gdtoolkit/common/ast.py:25-39 | The per-kind dispatch returns exactly the sub-statement builder's result. |
| Statements.LoadAllSubStatements | gdtoolkit/common/ast.py:40-43 | The accumulation loop computes the flattening of the sub-statements. |
| Statements.LoadStatement | gdtoolkit/common/ast.py:12-43 | The constructor returns exactly the statement builder's result. |
| Functions.BuildParameter | gdtoolkit/common/ast.py:55-56 | A parameter is built exactly when the node is a tree whose first child is a token. Its name is that token's value. |
| Functions.ParameterNodesMembers | gdtoolkit/common/ast.py:76-80 | A node is a parameter node exactly when it is a child of `func_args` and not a trailing-comma marker. |
| Functions.ParameterNodesAppend | gdtoolkit/common/ast.py:76-80 | The filter distributes over concatenation and keeps order. |
| Functions.TrailingCommaIgnored | gdtoolkit/common/ast.py:79 | A trailing-comma marker contributes no parameter, wherever it stands. |
| Functions.BuildParameters | gdtoolkit/common/ast.py:76-80 | Building succeeds exactly when every child is a tree and every non-marker child yields a parameter. There is then one parameter per non-marker child, in source order, each built from that child. |
| Functions.TrailingCommaExample | gdtoolkit/common/ast.py:76-80 | `(a, b, )` declares exactly the parameters `a` and `b`. |
| Functions.BuildFunction | gdtoolkit/common/ast.py:63-80 | A statement failure propagates. The statement is the node's statement. The name is the name token of the header, child 0. The parameters match the filtered `func_args` children. `allStatements` starts with the function, has the tree size of the function, and is the pre-order walk of its tree. The function is built exactly when its statement is built, the node has a header child, the name and `func_args` lookups both succeed, and every parameter is built. A node without children is malformed. A missing name gives `LookupFailure("name")`. A missing `func_args` gives `LookupFailure("func_args")`. A `func_args` token is malformed. |
| Functions.LoadFunction | gdtoolkit/common/ast.py:63-80 | The constructor returns exactly the function builder's result. |
| Classes.ScanStepClass | gdtoolkit/common/ast.py:108-112 | Adding a nested class keeps the four views equal to the parse-tree walks. `allSubClasses` stays the pre-order concatenation of `[c] + c.allSubClasses`. `functions` stays a subsequence of `allFunctions`. |
| Classes.ScanStepFunction | gdtoolkit/common/ast.py:113-116 | Adding a function keeps the same views. The function is appended to both `functions` and `allFunctions`. |
| Classes.ScanStepSkip | gdtoolkit/common/ast.py:105-107 | Tokens and every kind other than `class_def` and `func_def` leave the views unchanged. |
| Classes.ScanChildren | gdtoolkit/common/ast.py:104-116 | On success, every direct and nested sub-class is itself described recursively in the same terms as its parent. Also, the direct sub-classes and functions are exactly the `class_def` and `func_def` children, in order. `allSubClasses` and `allFunctions` are exactly the classes and functions of the nested walks. `allSubClasses` is the pre-order concatenation of `[c] + c.allSubClasses`. `functions` is a subsequence of `allFunctions`. Every function is the one built from its own node. |
| Classes.ScanChildrenSucceeds | gdtoolkit/common/ast.py:104-116 | Scanning succeeds exactly when every `class_def` child builds a class and every `func_def` child builds a function. |
| Classes.BuildClass | gdtoolkit/common/ast.py:88-121 | A token fails as malformed. Any kind other than `start` and `class_def` fails with `InvalidRootNode`. A `class_def` without a name fails with `LookupFailure("name")`. Building succeeds exactly when the root kind and the name are acceptable and the scan of the children succeeds. A scan failure is propagated unchanged. A `start` class has no name. A `class_def` class has the name the lookup finds. The class and, recursively, every class nested in it satisfy everything stated for the scan. |
| Classes.DescribedClassUnique | gdtoolkit/common/ast.py:88-121 | Two classes described by the same node are equal. The construction is determined by its node. |
| Classes.DescribedClassIsBuilt | gdtoolkit/common/ast.py:88-121 | Every described class, nested ones included, is exactly the class that the constructor builds from its own node. |
| Classes.ClassWithNested | gdtoolkit/common/ast.py:88-121 | A class followed by its `allSubClasses` is a list of described classes. Its nodes are the class node followed by every nested `class_def`. Its functions are those of the nested walk, each built from its own node. |
| Classes.LoadNodeChildren | gdtoolkit/common/ast.py:104-116 | The scanning loop returns exactly the scan's result, including the first failure of a nested class or function. |
| Classes.LoadClass | gdtoolkit/common/ast.py:88-121 | The constructor returns exactly the class builder's result. |
| SyntaxTree.BuildAst | gdtoolkit/common/ast.py:129-132 | Building succeeds exactly when the root class is built, and a class failure propagates. The root class is the class of the parse tree. `allClasses` is the root followed by its `allSubClasses`. Its nodes are the root followed by every nested `class_def`, and every entry is described. `allFunctions` is the root's `allFunctions`, listing every function of the nested walk, each built from its own node. A `start` root has no name. |
| SyntaxTree.AllClassesAreBuilt | gdtoolkit/common/ast.py:129-131 | Every entry of `allClasses` is exactly the class that the constructor builds from its own node. |
| SyntaxTree.LoadAst | gdtoolkit/common/ast.py:129-132 | The constructor returns exactly the tree builder's result. |
| SampleFile.IfBranchBodies | gdtoolkit/common/ast.py:27-32 | In `if true: pass else: pass`, the `if` branch contributes its body without the condition and the `else` branch contributes its body whole. |
| SampleFile.IfStatement | gdtoolkit/common/ast.py:27-32 | The conditional of `baz` has both `pass` statements as its sub-statements, and its condition is not a statement. |
| SampleFile.BazStatements | gdtoolkit/common/ast.py:63-67 | `baz` is named `baz` and has no parameters. Its `allStatements` is exactly its own statement, then the conditional, then the two `pass` statements. |
| SampleFile.BarFunction | gdtoolkit/common/ast.py:71-80 | `bar` is named `bar` and declares the parameters `a` and `b`. |
| SampleFile.FileClasses | gdtoolkit/common/ast.py:129-131 | The file has two classes: first the unnamed root on the file node, then the class named `Foo` on its `class_def` node. |
| SampleFile.FileFunctions | gdtoolkit/common/ast.py:129-132 | The file's functions are `bar` then `baz`, with the parameters above. The `allStatements` of `baz` is exactly the list above. |

## Left out

- `Statement.__repr__` (gdtoolkit/common/ast.py:45-48): presentation only. Line and column positions are not part of `ParseNode`.
- Lark's `Tree` and `Token` classes are replaced by `ParseNode`. Python's errors from reading `.data` or `.children` of a token, or child 0 of a node without children, all become `MalformedNode`.
- `find_name_token_among_children` and `find_tree_among_children` are defined in `gdtoolkit/common/utils.py`, which is not part of this model. They are parameters (`Lookups`). A `None` result, on which the Python code raises `AttributeError`, becomes `LookupFailure`.
- Exception types are collapsed into `Error`: `NotImplementedError` becomes `UnsupportedNodeKind`, and `Exception("Cannot load class from that node")` becomes `InvalidRootNode`. Nothing distinguishes them further.
- Object identity: the model builds values, not objects.
  - `Function` holds its statement view (`statement`) rather than inheriting from `Statement`.
  - The first entry of `allStatements` is that statement view, not the Python `Function` object itself.
  - A sub-class in `subClasses` and the same sub-class in `allSubClasses` are equal values, not one shared object.
- Functions.BuildFunction: states the first entry of `allStatements` as the function's statement view, because the model has no object identity to state `is self`.
- In-place updates of the constructors' fields are modelled by the loop methods' local accumulators. Each object is complete once its constructor returns, and nothing changes it afterwards.
- Python's recursion limit on very deep parse trees is not modelled.
- In the whole-file example, `all_statements` of `func baz(): if true: pass else: pass` has four entries, because it starts with the function itself (gdtoolkit/common/ast.py:67).
