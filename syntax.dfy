/**
 The part of a Python syntax tree that the identifier counter looks at.

 `ast.NodeVisitor.visit` dispatches on the class of a node: `Assign`,
 `FunctionDef` and `ClassDef` have handlers of their own, every other node
 class (Module, AnnAssign, AsyncFunctionDef, Call, Lambda, ...) falls through
 to `generic_visit`, which visits the node's children in field order. The
 fields of a node are collapsed into one ordered sequence `children`.
 */
module Syntax {

  /** An assignment target: a `Name` carries an `id`; attribute, subscript,
      tuple, list and starred targets have no `id` attribute at all. */
  datatype Target = NameT(id: string) | NoId

  datatype Node =
    | Assign(targets: seq<Target>, line: nat, children: seq<Node>)
    | FunctionDef(name: string, line: nat, children: seq<Node>)
    | ClassDef(name: string, line: nat, children: seq<Node>)
    | Other(children: seq<Node>)

  /** One source file handed to `check`: its name and its already parsed tree. */
  datatype SourceFile = SourceFile(path: string, tree: Node)
}
