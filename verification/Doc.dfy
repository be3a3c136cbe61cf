/** The document IR (doc/doc.go). */
module Doc {

  /** Text, Concat and the nodes of the arena. A Group carries its identity, because break
      propagation marks group nodes; Nil is a nil document. */
  datatype Doc =
    | Nil
    | Text(s: string)
    | Concat(parts: seq<Doc>)
    | Indent(doc: Doc)
    | Align(n: int, doc: Doc)
    | Trim
    | Group(node: nat, id: int, doc: Doc, expanded: seq<Doc>)
    | IfBreak(broken: Doc, flat: Doc, groupID: int)
    | LineSuffix(doc: Doc)
    | LineSuffixBoundary
    | LineDoc(line: Line)
    | BreakParent

  datatype Line = Line(soft: bool, hard: bool, literal: bool, comment: bool, afterComment: bool)

  const HARD_LINE_NO_BREAK := LineDoc(Line(false, true, false, false, false))

  /** The children traverseDoc visits, in its order: a conditional group's states come first, and
      the first of them, which is also the group's doc, comes again at the end. */
  function Children(d: Doc): (r: seq<Doc>)
    ensures forall i :: 0 <= i < |r| ==> r[i] < d
  {
    match d
    case Concat(parts) => parts
    case Group(_, _, doc, expanded) => expanded + [doc]
    case Indent(doc) => [doc]
    case Align(_, doc) => [doc]
    case IfBreak(broken, flat, _) => [broken, flat]
    case LineSuffix(doc) => [doc]
    case _ => []
  }
}
