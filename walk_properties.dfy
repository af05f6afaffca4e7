/**
 * Properties of the walk: the nesting counter and the current function come back
 * to their entry values, the loop records stay consistent with the running
 * maximum, the maximum is the tree's loop depth, and the collected names, kinds,
 * records and recursive calls are exactly those the tree's facts describe.
 */
module WalkProperties {
  import opened Wrappers
  import opened Tree
  import opened Records
  import opened Facts
  import opened Walk

  // ---------------------------------------------------------------------------
  // The counter and the current-function slot are restored

  lemma {:induction false} HandleRestores(s: ParserState, n: Node)
    ensures Handle(s, n).currentNesting == s.currentNesting
    ensures Handle(s, n).currentFunction == s.currentFunction
    decreases Size(n), 0
  {
    match n {
    case For(line, _, iter, body, _) =>
      VisitAllRestores(EnterLoop(s, ForLoop, line, IteratorType(iter)), body);
    case While(line, _, body, _) =>
      VisitAllRestores(EnterLoop(s, WhileLoop, line, None), body);
    case FunctionDef(name, _, _, _, body, _, _) =>
      VisitAllRestores(s.(currentFunction := Some(name)), body);
    case _ =>
    }
  }

  lemma {:induction false} VisitRestores(s: ParserState, n: Node)
    ensures Visit(s, n).currentNesting == s.currentNesting
    ensures Visit(s, n).currentFunction == s.currentFunction
    decreases Size(n), 1
  {
    ChildrenSmaller(n);
    HandleRestores(s, n);
    VisitAllRestores(Handle(s, n), Children(n));
  }

  lemma {:induction false} VisitAllRestores(s: ParserState, ns: seq<Node>)
    ensures VisitAll(s, ns).currentNesting == s.currentNesting
    ensures VisitAll(s, ns).currentFunction == s.currentFunction
    decreases SizeSeq(ns), 2
  {
    if ns != [] {
      VisitRestores(s, ns[0]);
      VisitAllRestores(Visit(s, ns[0]), ns[1..]);
    }
  }

  /** Walking a concatenation walks its parts in turn. */
  lemma {:induction false} VisitAllAppend(s: ParserState, a: seq<Node>, b: seq<Node>)
    ensures VisitAll(s, a + b) == VisitAll(VisitAll(s, a), b)
    decreases |a|
  {
    if a == [] {
      assert a + b == b;
    } else {
      assert (a + b)[1..] == a[1..] + b;
      VisitAllAppend(Visit(s, a[0]), a[1..], b);
    }
  }

  // ---------------------------------------------------------------------------
  // Consistency of the loop records with the counters

  /** The running maximum is the largest recorded level (0 with no records), every
      recorded level is at least 1, and `while` records carry no iterator hint. */
  predicate Consistent(s: ParserState) {
    && s.currentNesting >= 0
    && (forall i :: 0 <= i < |s.loops| ==> 1 <= s.loops[i].nestedLevel)
    && (forall i :: 0 <= i < |s.loops| && s.loops[i].kind == WhileLoop ==> s.loops[i].iteratorType == None)
    && s.maxNesting == (if s.loops == [] then 0 else MaxLevel(s.loops))
  }

  lemma EnterLoopConsistent(s: ParserState, kind: LoopKind, line: int, iteratorType: Option<string>)
    requires Consistent(s)
    requires kind == WhileLoop ==> iteratorType == None
    ensures Consistent(EnterLoop(s, kind, line, iteratorType))
  {
    var t := EnterLoop(s, kind, line, iteratorType);
    assert t.loops[..|t.loops| - 1] == s.loops;
  }

  lemma {:induction false} HandleConsistent(s: ParserState, n: Node)
    requires Consistent(s)
    ensures Consistent(Handle(s, n))
    decreases Size(n), 0
  {
    match n {
    case For(line, _, iter, body, _) =>
      var e := EnterLoop(s, ForLoop, line, IteratorType(iter));
      EnterLoopConsistent(s, ForLoop, line, IteratorType(iter));
      VisitAllConsistent(e, body);
      VisitAllRestores(e, body);
    case While(line, _, body, _) =>
      var e := EnterLoop(s, WhileLoop, line, None);
      EnterLoopConsistent(s, WhileLoop, line, None);
      VisitAllConsistent(e, body);
      VisitAllRestores(e, body);
    case FunctionDef(name, _, _, _, body, _, _) =>
      VisitAllConsistent(s.(currentFunction := Some(name)), body);
    case _ =>
    }
  }

  lemma {:induction false} VisitConsistent(s: ParserState, n: Node)
    requires Consistent(s)
    ensures Consistent(Visit(s, n))
    decreases Size(n), 1
  {
    ChildrenSmaller(n);
    HandleConsistent(s, n);
    VisitAllConsistent(Handle(s, n), Children(n));
  }

  lemma {:induction false} VisitAllConsistent(s: ParserState, ns: seq<Node>)
    requires Consistent(s)
    ensures Consistent(VisitAll(s, ns))
    decreases SizeSeq(ns), 2
  {
    if ns != [] {
      VisitConsistent(s, ns[0]);
      VisitAllConsistent(Visit(s, ns[0]), ns[1..]);
    }
  }

  // ---------------------------------------------------------------------------
  // The running maximum is the syntactic loop depth

  /** The loop depth the handler itself walks: one more than the body's for a
      loop, the body's for a definition, none otherwise. */
  function HandledDepth(n: Node): nat
    decreases Size(n), 0
  {
    match n
    case For(_, _, _, body, _) => 1 + FactsOfAll(body).depth
    case While(_, _, body, _) => 1 + FactsOfAll(body).depth
    case FunctionDef(_, _, _, _, body, _, _) => FactsOfAll(body).depth
    case _ => 0
  }

  lemma {:induction false} HandleDepth(s: ParserState, n: Node)
    requires s.currentNesting <= s.maxNesting
    ensures Handle(s, n).maxNesting == Max(s.maxNesting, s.currentNesting + HandledDepth(n))
    decreases Size(n), 0
  {
    match n {
    case For(line, _, iter, body, _) =>
      VisitAllDepth(EnterLoop(s, ForLoop, line, IteratorType(iter)), body);
    case While(line, _, body, _) =>
      VisitAllDepth(EnterLoop(s, WhileLoop, line, None), body);
    case FunctionDef(name, _, _, _, body, _, _) =>
      VisitAllDepth(s.(currentFunction := Some(name)), body);
    case _ =>
    }
  }

  lemma {:induction false} VisitDepth(s: ParserState, n: Node)
    requires s.currentNesting <= s.maxNesting
    ensures Visit(s, n).maxNesting == Max(s.maxNesting, s.currentNesting + FactsOf(n).depth)
    decreases Size(n), 1
  {
    ChildrenSmaller(n);
    HandleDepth(s, n);
    HandleRestores(s, n);
    VisitAllDepth(Handle(s, n), Children(n));
    if n.FunctionDef? {
      BodyCovered(n);
    }
  }

  lemma {:induction false} VisitAllDepth(s: ParserState, ns: seq<Node>)
    requires s.currentNesting <= s.maxNesting
    ensures VisitAll(s, ns).maxNesting == Max(s.maxNesting, s.currentNesting + FactsOfAll(ns).depth)
    decreases SizeSeq(ns), 2
  {
    if ns != [] {
      VisitDepth(s, ns[0]);
      VisitRestores(s, ns[0]);
      VisitAllDepth(Visit(s, ns[0]), ns[1..]);
      assert FactsOfAll(ns).depth == Max(FactsOf(ns[0]).depth, FactsOfAll(ns[1..]).depth);
    }
  }

  // ---------------------------------------------------------------------------
  // Builtin calls, container kinds, function records and loop sites

  /** What `t` has collected beyond `s` is exactly what `f` describes. */
  predicate Collected(s: ParserState, t: ParserState, f: Facts) {
    && Elements(t.builtinCalls) == Elements(s.builtinCalls) + f.calls * BuiltinNames
    && Elements(t.dataStructures) == Elements(s.dataStructures) + f.containers
    && Elements(t.functions) == Elements(s.functions) + f.defs
    && Sites(t.loops) == Sites(s.loops) + f.loops
  }

  /** The facts the handler itself collects: the node's own, and its body's. */
  function HandledFacts(n: Node): Facts
    decreases Size(n), 0
  {
    if n.For? || n.While? || n.FunctionDef? then Join(Own(n), FactsOfAll(n.body)) else Own(n)
  }

  lemma {:induction false} LoopCollected(s: ParserState, n: Node)
    requires n.For? || n.While?
    ensures Collected(s, Handle(s, n), HandledFacts(n))
    decreases Size(n), 0
  {
    var e := if n.For? then EnterLoop(s, ForLoop, n.line, IteratorType(n.iter))
             else EnterLoop(s, WhileLoop, n.line, None);
    VisitAllCollected(e, n.body);
    var info := e.loops[|e.loops| - 1];
    assert e.loops == s.loops + [info];
    SitesSnoc(s.loops, info);
    assert Own(n).loops == {info.Site()};
  }

  lemma {:induction false} HandleCollected(s: ParserState, n: Node)
    ensures Collected(s, Handle(s, n), HandledFacts(n))
    decreases Size(n), 1
  {
    match n {
    case For(_, _, _, _, _) => LoopCollected(s, n);
    case While(_, _, _, _) => LoopCollected(s, n);
    case FunctionDef(name, line, argCount, _, body, _, _) =>
      var w := VisitAll(s.(currentFunction := Some(name)), body);
      VisitAllCollected(s.(currentFunction := Some(name)), body);
      ElementsSnoc(w.functions, FunctionInfo(name, line, argCount));
    case Call(func, _, _) =>
      if func.Name? {
        var s' := if InFunction(s.currentFunction) && func.id == s.currentFunction.value
                  then s.(recursiveCalls := s.recursiveCalls + [func.id]) else s;
        ElementsSnoc(s'.builtinCalls, func.id);
      }
    case ListLit(_) => ElementsSnoc(s.dataStructures, "list");
    case DictLit(_) => ElementsSnoc(s.dataStructures, "dict");
    case SetLit(_) => ElementsSnoc(s.dataStructures, "set");
    case _ =>
    }
  }

  lemma CollectedJoin(s: ParserState, t: ParserState, u: ParserState, f: Facts, g: Facts)
    requires Collected(s, t, f) && Collected(t, u, g)
    ensures Collected(s, u, Join(f, g))
  {
  }

  /** What the handler collects from the body is collected again among the children. */
  lemma HandledFactsAbsorbed(n: Node)
    ensures var j := Join(HandledFacts(n), FactsOfAll(Children(n)));
      && j.calls == FactsOf(n).calls && j.containers == FactsOf(n).containers
      && j.defs == FactsOf(n).defs && j.loops == FactsOf(n).loops
  {
    if n.For? || n.While? || n.FunctionDef? {
      BodyCovered(n);
    }
  }

  lemma {:induction false} VisitCollected(s: ParserState, n: Node)
    ensures Collected(s, Visit(s, n), FactsOf(n))
    decreases Size(n), 2
  {
    ChildrenSmaller(n);
    var h := Handle(s, n);
    HandleCollected(s, n);
    VisitAllCollected(h, Children(n));
    CollectedJoin(s, h, Visit(s, n), HandledFacts(n), FactsOfAll(Children(n)));
    HandledFactsAbsorbed(n);
  }

  lemma {:induction false} VisitAllCollected(s: ParserState, ns: seq<Node>)
    ensures Collected(s, VisitAll(s, ns), FactsOfAll(ns))
    decreases SizeSeq(ns), 3
  {
    if ns != [] {
      VisitCollected(s, ns[0]);
      VisitAllCollected(Visit(s, ns[0]), ns[1..]);
    }
  }

  // ---------------------------------------------------------------------------
  // Recursive calls

  /** The call to the function currently being handled, if `calls` has one. */
  function ActiveCall(current: Option<string>, calls: set<string>): set<string> {
    if InFunction(current) && current.value in calls then {current.value} else {}
  }

  /** The recursive calls the handler itself records. */
  function HandledRecursion(current: Option<string>, n: Node): set<string>
    decreases Size(n), 0
  {
    match n
    case For(_, _, _, body, _) => FactsOfAll(body).selfRecursive + ActiveCall(current, FactsOfAll(body).calls)
    case While(_, _, body, _) => FactsOfAll(body).selfRecursive + ActiveCall(current, FactsOfAll(body).calls)
    case FunctionDef(name, _, _, _, body, _, _) =>
      FactsOfAll(body).selfRecursive + ActiveCall(Some(name), FactsOfAll(body).calls)
    case _ => ActiveCall(current, Own(n).calls)
  }

  lemma {:induction false} HandleRecursion(s: ParserState, n: Node)
    ensures Elements(Handle(s, n).recursiveCalls) == Elements(s.recursiveCalls) + HandledRecursion(s.currentFunction, n)
    decreases Size(n), 0
  {
    match n {
    case For(line, _, iter, body, _) =>
      var e := EnterLoop(s, ForLoop, line, IteratorType(iter));
      VisitAllRecursion(e, body);
    case While(line, _, body, _) =>
      var e := EnterLoop(s, WhileLoop, line, None);
      VisitAllRecursion(e, body);
    case FunctionDef(name, _, _, _, body, _, _) =>
      VisitAllRecursion(s.(currentFunction := Some(name)), body);
    case Call(func, _, _) =>
      if func.Name? && InFunction(s.currentFunction) && func.id == s.currentFunction.value {
        ElementsSnoc(s.recursiveCalls, func.id);
      }
    case _ =>
    }
  }

  lemma {:induction false} VisitRecursion(s: ParserState, n: Node)
    ensures Elements(Visit(s, n).recursiveCalls)
         == Elements(s.recursiveCalls) + FactsOf(n).selfRecursive + ActiveCall(s.currentFunction, FactsOf(n).calls)
    decreases Size(n), 1
  {
    ChildrenSmaller(n);
    HandleRecursion(s, n);
    HandleRestores(s, n);
    VisitAllRecursion(Handle(s, n), Children(n));
    if n.For? || n.While? || n.FunctionDef? {
      BodyCovered(n);
    }
  }

  lemma {:induction false} VisitAllRecursion(s: ParserState, ns: seq<Node>)
    ensures Elements(VisitAll(s, ns).recursiveCalls)
         == Elements(s.recursiveCalls) + FactsOfAll(ns).selfRecursive + ActiveCall(s.currentFunction, FactsOfAll(ns).calls)
    decreases SizeSeq(ns), 2
  {
    if ns != [] {
      VisitRecursion(s, ns[0]);
      VisitRestores(s, ns[0]);
      VisitAllRecursion(Visit(s, ns[0]), ns[1..]);
    }
  }
}
