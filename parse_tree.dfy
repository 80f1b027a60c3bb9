/** The grammar-shaped parse tree the syntax tree is built from, and the two
    lookups over a node's children that the builders rely on. */
module ParseTrees {
  import opened Results

  /** A node of the parse tree: a tree labelled with the grammar rule it
      instantiates, or a leaf token carrying its text. */
  datatype ParseNode =
    | Tree(kind: string, children: seq<ParseNode>)
    | Token(value: string)

  /** The two collaborators that search a node's direct children. They are not
      part of this model, so every builder receives them as values:
      `nameToken(n)` is the text of the identifier token among `n`'s children,
      `treeAmong(k, n)` the first child subtree of `n` whose kind is `k`. */
  datatype Lookups = Lookups(
    nameToken: ParseNode -> Option<string>,
    treeAmong: (string, ParseNode) -> Option<ParseNode>
  )

  /** `s` without its first `k` elements, empty when `s` is shorter than `k`
      (slicing `s[k:]` past the end yields nothing). */
  function Drop<T>(s: seq<T>, k: nat): (r: seq<T>)
    ensures |r| == if k <= |s| then |s| - k else 0
    ensures r == s[(if k <= |s| then k else |s|)..]
  {
    if k <= |s| then s[k..] else []
  }
}
