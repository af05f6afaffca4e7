/**
 * What a syntax tree contains, defined declaratively and independently of the
 * parser's walk: the bare names it calls, the container literals it builds, the
 * functions and loops it defines, the functions whose body calls their own name,
 * and how deeply its loops nest. The walk is proved to report exactly these.
 */
module Facts {
  import opened Wrappers
  import opened Tree
  import opened Records

  datatype Facts = Facts(
    calls: set<string>,          // bare names appearing as a call's callee
    containers: set<string>,     // "list", "dict", "set" for each literal kind present
    defs: set<FunctionInfo>,     // one record per function definition
    loops: set<LoopSite>,        // one site per loop
    selfRecursive: set<string>,  // names of definitions whose body calls that name
    depth: nat)                  // deepest chain of loops, each in the previous one's body

  const NoFacts := Facts({}, {}, {}, {}, {}, 0)

  function Join(a: Facts, b: Facts): Facts {
    Facts(a.calls + b.calls, a.containers + b.containers, a.defs + b.defs,
          a.loops + b.loops, a.selfRecursive + b.selfRecursive, Max(a.depth, b.depth))
  }

  /** Facts about the node itself, apart from those of its children. */
  function Own(n: Node): Facts
    decreases Size(n), 0
  {
    match n
    case For(line, _, iter, body, _) =>
      NoFacts.(loops := {LoopSite(ForLoop, line, IteratorType(iter))}, depth := 1 + FactsOfAll(body).depth)
    case While(line, _, body, _) =>
      NoFacts.(loops := {LoopSite(WhileLoop, line, None)}, depth := 1 + FactsOfAll(body).depth)
    case FunctionDef(name, line, argCount, _, body, _, _) =>
      NoFacts.(defs := {FunctionInfo(name, line, argCount)},
               selfRecursive := if name != "" && name in FactsOfAll(body).calls then {name} else {})
    case Call(func, _, _) =>
      if func.Name? then NoFacts.(calls := {func.id}) else NoFacts
    case ListLit(_) => NoFacts.(containers := {"list"})
    case DictLit(_) => NoFacts.(containers := {"dict"})
    case SetLit(_) => NoFacts.(containers := {"set"})
    case _ => NoFacts
  }

  function FactsOf(n: Node): Facts
    decreases Size(n), 1
  {
    ChildrenSmaller(n);
    Join(Own(n), FactsOfAll(Children(n)))
  }

  function FactsOfAll(ns: seq<Node>): Facts
    decreases SizeSeq(ns), 2
  {
    if ns == [] then NoFacts else Join(FactsOf(ns[0]), FactsOfAll(ns[1..]))
  }

  lemma {:induction false} FactsOfAllAppend(a: seq<Node>, b: seq<Node>)
    ensures FactsOfAll(a + b) == Join(FactsOfAll(a), FactsOfAll(b))
  {
    if a == [] {
      assert a + b == b;
    } else {
      assert (a + b)[1..] == a[1..] + b;
      FactsOfAllAppend(a[1..], b);
    }
  }

  /** `small` says nothing that `big` does not. */
  predicate Covers(big: Facts, small: Facts) {
    && small.calls <= big.calls
    && small.containers <= big.containers
    && small.defs <= big.defs
    && small.loops <= big.loops
    && small.selfRecursive <= big.selfRecursive
    && small.depth <= big.depth
  }

  /** A loop's or definition's body is among its children. */
  lemma BodyCovered(n: Node)
    requires n.For? || n.While? || n.FunctionDef?
    ensures Covers(FactsOfAll(Children(n)), FactsOfAll(n.body))
  {
    match n
    case For(_, target, iter, body, orelse) =>
      FactsOfAllAppend([target, iter] + body, orelse);
      FactsOfAllAppend([target, iter], body);
    case While(_, test, body, orelse) =>
      FactsOfAllAppend([test] + body, orelse);
      FactsOfAllAppend([test], body);
    case FunctionDef(_, _, _, params, body, decorators, annotations) =>
      FactsOfAllAppend([params] + body + decorators, annotations);
      FactsOfAllAppend([params] + body, decorators);
      FactsOfAllAppend([params], body);
  }

  /** The only container kinds are the three literal kinds. */
  lemma {:induction false} ContainerKinds(n: Node)
    ensures FactsOf(n).containers <= {"list", "dict", "set"}
    decreases Size(n), 1
  {
    ChildrenSmaller(n);
    ContainerKindsAll(Children(n));
  }

  lemma {:induction false} ContainerKindsAll(ns: seq<Node>)
    ensures FactsOfAll(ns).containers <= {"list", "dict", "set"}
    decreases SizeSeq(ns), 2
  {
    if ns != [] {
      ContainerKinds(ns[0]);
      ContainerKindsAll(ns[1..]);
    }
  }

  /** A list of nodes says everything each of its elements says. */
  lemma {:induction false} ElementCovered(ns: seq<Node>, i: nat)
    requires i < |ns|
    ensures Covers(FactsOfAll(ns), FactsOf(ns[i]))
    decreases i
  {
    if i > 0 {
      ElementCovered(ns[1..], i - 1);
    }
  }

  /** A node says everything each of its children says. */
  lemma ChildCovered(n: Node, i: nat)
    requires i < |Children(n)|
    ensures Covers(FactsOf(n), FactsOf(Children(n)[i]))
  {
    ElementCovered(Children(n), i);
  }
}
