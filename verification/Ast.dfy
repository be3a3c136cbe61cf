/** The syntax tree as ranges of tokens (syntax/ast.go). */
module Ast {
  import opened Lexing
  import opened Wrappers

  /** What a node is. A TokenForm stands for a token the tree points to. */
  datatype Form =
    | TokenForm | NameForm | IncludeForm | CPPIncludeForm | NamespaceForm | ConstForm | TypedefForm | EnumForm
    | EnumValueForm | StructForm(kind: Kind) | ThrowsForm | FunctionForm | ServiceForm | FieldForm
    | BaseTypeForm(kind: Kind) | NamedTypeForm | MapTypeForm | ListTypeForm | SetTypeForm
    | IntForm | DoubleForm | StringForm | IdentForm | ListForm | MapForm
    | AnnotationForm | AnnotationsForm | StructuredForm

  /** What a node is to its parent. */
  datatype Role =
    | PathRole | ScopeRole | NameRole | TypeRole | ValueRole | SepRole | EntryRole | ExtendsRole | OnewayRole | VoidRole
    | ThrowsRole | IDRole | ReqRole | ReferenceRole | KeyRole | CPPTypeRole | AnnotationsRole | StructuredRole

  datatype Child = Child(role: Role, node: Node)

  /** A node spans the tokens from first to last; its parts are in source order. */
  datatype Node = Node(form: Form, first: nat, last: nat, parts: seq<Child>)

  function Leaf(i: nat): Node {
    Node(TokenForm, i, i, [])
  }

  /** A node starts and ends on real tokens, and so do its parts, which lie inside it one after
      another. */
  ghost predicate Sound(toks: seq<Token>, n: Node)
    decreases n
  {
    && RealAt(toks, n.first) && RealAt(toks, n.last) && n.first <= n.last
    && (forall i :: 0 <= i < |n.parts| ==> n.first <= n.parts[i].node.first && n.parts[i].node.last <= n.last)
    && (forall i :: 0 < i < |n.parts| ==> n.parts[i - 1].node.last < n.parts[i].node.first)
    && forall i :: 0 <= i < |n.parts| ==> Sound(toks, n.parts[i].node)
  }

  /** Sound nodes one after another between the tokens lo and hi. */
  ghost predicate Row(toks: seq<Token>, parts: seq<Child>, lo: int, hi: int) {
    && (forall i :: 0 <= i < |parts| ==>
          lo <= parts[i].node.first && parts[i].node.last < hi && Sound(toks, parts[i].node))
    && forall i :: 0 < i < |parts| ==> parts[i - 1].node.last < parts[i].node.first
  }

  /** A sound node between the tokens lo and hi. */
  ghost predicate Spans(toks: seq<Token>, n: Node, lo: int, hi: int) {
    Sound(toks, n) && lo <= n.first && n.last < hi
  }

  lemma RowNone(toks: seq<Token>, lo: int, hi: int)
    ensures Row(toks, [], lo, hi)
  {
  }

  lemma RowLater(toks: seq<Token>, parts: seq<Child>, lo: int, mid: int, hi: int)
    requires Row(toks, parts, lo, mid) && mid <= hi
    ensures Row(toks, parts, lo, hi)
  {
    hide Sound;
  }

  lemma RowAdd(toks: seq<Token>, parts: seq<Child>, lo: int, mid: int, role: Role, n: Node, from: int, hi: int)
    requires Row(toks, parts, lo, mid) && Spans(toks, n, from, hi) && lo <= mid <= from
    ensures Row(toks, parts + [Child(role, n)], lo, hi)
  {
    hide Sound;
    OrderedRange(toks, n);
    var more := parts + [Child(role, n)];
    assert forall i :: 0 <= i < |parts| ==> more[i] == parts[i];
  }

  lemma OrderedRange(toks: seq<Token>, n: Node)
    requires Sound(toks, n)
    ensures n.first <= n.last < |toks|
  {
  }

  /** A node over a row of parts. */
  lemma NodeOver(toks: seq<Token>, form: Form, first: nat, mid: int, hi: nat, parts: seq<Child>)
    requires RealAt(toks, first) && RealAt(toks, hi - 1) && first < hi && Row(toks, parts, first, mid) && mid <= hi
    ensures Spans(toks, Node(form, first, hi - 1, parts), first, hi)
  {
  }

  lemma LeafSpans(toks: seq<Token>, i: nat)
    requires RealAt(toks, i)
    ensures Spans(toks, Leaf(i), i, i + 1)
  {
  }

  lemma SpansLater(toks: seq<Token>, n: Node, lo: int, hi: int, lo': int, hi': int)
    requires Spans(toks, n, lo, hi) && lo' <= lo && hi <= hi'
    ensures Spans(toks, n, lo', hi')
  {
    hide Sound;
  }
}
