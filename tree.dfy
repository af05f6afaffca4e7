/**
 * The syntax tree the parser walks, as Python's `ast` module builds it, reduced to
 * the node kinds the walker tells apart. Every other node kind is `Other`, holding
 * its children in the order `ast.iter_child_nodes` yields them.
 */
module Tree {

  datatype Node =
      /** `for target in iter: body else: orelse` */
    | For(line: int, target: Node, iter: Node, body: seq<Node>, orelse: seq<Node>)
      /** `while test: body else: orelse` */
    | While(line: int, test: Node, body: seq<Node>, orelse: seq<Node>)
      /** `def name(params): body`; `argCount` is the number of plain positional
          parameters, `params` the `arguments` node, `annotations` the return
          annotation and type parameters, if any */
    | FunctionDef(name: string, line: int, argCount: nat, params: Node,
                  body: seq<Node>, decorators: seq<Node>, annotations: seq<Node>)
      /** `func(args, keywords)` */
    | Call(func: Node, args: seq<Node>, keywords: seq<Node>)
      /** a bare identifier */
    | Name(id: string)
      /** `[...]`, `{k: v, ...}` (keys, then values) and `{...}` literals */
    | ListLit(elts: seq<Node>)
    | DictLit(elts: seq<Node>)
    | SetLit(elts: seq<Node>)
    | Other(children: seq<Node>)

  /** The direct children of `n`, in `ast.iter_child_nodes` order. */
  function Children(n: Node): seq<Node> {
    match n
    case For(_, target, iter, body, orelse) => [target, iter] + body + orelse
    case While(_, test, body, orelse) => [test] + body + orelse
    case FunctionDef(_, _, _, params, body, decorators, annotations) => [params] + body + decorators + annotations
    case Call(func, args, keywords) => [func] + args + keywords
    case Name(_) => []
    case ListLit(elts) => elts
    case DictLit(elts) => elts
    case SetLit(elts) => elts
    case Other(children) => children
  }

  /** Number of nodes in the tree; the termination measure of every walk over it. */
  function Size(n: Node): nat
    decreases n
  {
    1 + match n
        case For(_, target, iter, body, orelse) => Size(target) + Size(iter) + SizeSeq(body) + SizeSeq(orelse)
        case While(_, test, body, orelse) => Size(test) + SizeSeq(body) + SizeSeq(orelse)
        case FunctionDef(_, _, _, params, body, decorators, annotations) =>
          Size(params) + SizeSeq(body) + SizeSeq(decorators) + SizeSeq(annotations)
        case Call(func, args, keywords) => Size(func) + SizeSeq(args) + SizeSeq(keywords)
        case Name(_) => 0
        case ListLit(elts) => SizeSeq(elts)
        case DictLit(elts) => SizeSeq(elts)
        case SetLit(elts) => SizeSeq(elts)
        case Other(children) => SizeSeq(children)
  }

  function SizeSeq(ns: seq<Node>): nat
    decreases ns
  {
    if ns == [] then 0 else Size(ns[0]) + SizeSeq(ns[1..])
  }

  lemma {:induction false} SizeSeqAppend(a: seq<Node>, b: seq<Node>)
    ensures SizeSeq(a + b) == SizeSeq(a) + SizeSeq(b)
  {
    if a == [] {
      assert a + b == b;
    } else {
      assert (a + b)[1..] == a[1..] + b;
      SizeSeqAppend(a[1..], b);
    }
  }

  /** The children of a node are, together, smaller than the node. */
  lemma ChildrenSmaller(n: Node)
    ensures SizeSeq(Children(n)) < Size(n)
  {
    match n
    case For(_, target, iter, body, orelse) =>
      SizeSeqAppend([target, iter] + body, orelse);
      SizeSeqAppend([target, iter], body);
      assert [target, iter][1..] == [iter];
    case While(_, test, body, orelse) =>
      SizeSeqAppend([test] + body, orelse);
      SizeSeqAppend([test], body);
    case FunctionDef(_, _, _, params, body, decorators, annotations) =>
      SizeSeqAppend([params] + body + decorators, annotations);
      SizeSeqAppend([params] + body, decorators);
      SizeSeqAppend([params], body);
    case Call(func, args, keywords) =>
      SizeSeqAppend([func] + args, keywords);
      SizeSeqAppend([func], args);
    case _ =>
  }

  /** Each element of a sequence of nodes is no larger than the whole sequence. */
  lemma {:induction false} ElementSmaller(ns: seq<Node>, i: nat)
    requires i < |ns|
    ensures Size(ns[i]) <= SizeSeq(ns)
  {
    if i > 0 {
      ElementSmaller(ns[1..], i - 1);
    }
  }
}
