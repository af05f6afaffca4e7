/**
 * Snippets from the repository's tests and samples, built by hand as the trees
 * `ast.parse` gives for them, and what the parser reports for each.
 * `pass`, constants and the `arguments` node are `Other` nodes without children
 * of interest to the walk.
 */
module ParserExamples {
  import opened Wrappers
  import opened Tree
  import opened Records
  import opened Facts
  import opened Walk
  import opened WalkProperties
  import opened AstParser

  const Pass := Other([])

  /** `range(...)` with one argument. */
  function RangeCall(): Node {
    Call(Name("range"), [Other([])], [])
  }

  /** `for <var> in range(...): <body>` on line `line`. */
  function ForRange(line: int, variable: string, body: seq<Node>): Node {
    For(line, Name(variable), RangeCall(), body, [])
  }

  /** Nodes the walk passes over without a trace. */
  lemma VisitInert(s: ParserState, n: Node)
    requires n.Name? || n == Pass
    ensures Visit(s, n) == s
  {
    assert Children(n) == [];
  }

  /** A module, or any other inert node, around a single statement. */
  lemma VisitWrapped(s: ParserState, n: Node)
    ensures Visit(s, Other([n])) == Visit(s, n)
  {
    assert VisitAll(s, [n]) == VisitAll(Visit(s, n), []);
  }

  /** A call of `range` outside a function named `range` only records the builtin. */
  lemma VisitRange(s: ParserState)
    requires s.currentFunction != Some("range")
    ensures Visit(s, RangeCall()) == s.(builtinCalls := s.builtinCalls + ["range"])
  {
    var c := CallStep(s, RangeCall());
    assert Children(RangeCall()) == [Name("range"), Other([])];
    VisitInert(c, Name("range"));
    VisitInert(c, Other([]));
  }

  /** The children of a `for` over a `range`, walked outside a function named `range`. */
  lemma VisitForHeader(s: ParserState, variable: string)
    requires s.currentFunction != Some("range")
    ensures VisitAll(s, [Name(variable), RangeCall()]) == s.(builtinCalls := s.builtinCalls + ["range"])
  {
    VisitInert(s, Name(variable));
    VisitRange(s);
    var t := s.(builtinCalls := s.builtinCalls + ["range"]);
    assert VisitAll(s, [Name(variable), RangeCall()]) == VisitAll(Visit(s, Name(variable)), [RangeCall()]);
    assert VisitAll(s, [RangeCall()]) == VisitAll(t, []);
  }

  /** A `for` over a `range`: the handler, then the header's `range` call, then the body again. */
  lemma VisitForRange(s: ParserState, line: int, variable: string, body: seq<Node>)
    requires s.currentFunction != Some("range")
    ensures var h := ForLoopStep(s, ForRange(line, variable, body));
      Visit(s, ForRange(line, variable, body)) == VisitAll(h.(builtinCalls := h.builtinCalls + ["range"]), body)
  {
    var f := ForRange(line, variable, body);
    var h := Handle(s, f);
    HandleRestores(s, f);
    assert Children(f) == [Name(variable), RangeCall()] + body;
    VisitAllAppend(h, [Name(variable), RangeCall()], body);
    VisitForHeader(h, variable);
  }

  /** `for i in range(10): pass` */
  lemma SingleForLoop()
    ensures AnalysisOf(Other([ForRange(1, "i", [Pass])]))
         == ASTAnalysis([LoopInfo(ForLoop, 1, 1, Some("range"))], [], 1, [], {"range"}, {})
  {
    var f := ForRange(1, "i", [Pass]);
    var e := EnterLoop(Initial, ForLoop, 1, Some("range"));
    VisitInert(e, Pass);
    assert VisitAll(e, [Pass]) == e;
    VisitForRange(Initial, 1, "i", [Pass]);
    var v := e.(currentNesting := 0, builtinCalls := ["range"]);
    VisitInert(v, Pass);
    assert VisitAll(v, [Pass]) == v;
    VisitWrapped(Initial, f);
    assert Elements(["range"]) == {"range"};
  }

  /** `for i in range(10):\n  for j in range(10): pass` gives three loop records:
      the inner loop is recorded once at depth 2 by the outer loop's handler and
      once more at depth 1 when the outer loop's children are walked. */
  lemma NestedForLoops()
    ensures AnalysisOf(Other([ForRange(1, "i", [ForRange(2, "j", [Pass])])])).loops
         == [LoopInfo(ForLoop, 1, 1, Some("range")), LoopInfo(ForLoop, 2, 2, Some("range")),
             LoopInfo(ForLoop, 2, 1, Some("range"))]
    ensures AnalysisOf(Other([ForRange(1, "i", [ForRange(2, "j", [Pass])])])).maxNestingLevel == 2
  {
    var inner := ForRange(2, "j", [Pass]);
    var outer := ForRange(1, "i", [inner]);
    // the outer handler: the inner loop at depth 2
    var e1 := EnterLoop(Initial, ForLoop, 1, Some("range"));
    var e2 := EnterLoop(e1, ForLoop, 2, Some("range"));
    VisitInert(e2, Pass);
    assert VisitAll(e2, [Pass]) == e2;
    VisitForRange(e1, 2, "j", [Pass]);
    var a := e2.(currentNesting := 1, builtinCalls := ["range"]);
    VisitInert(a, Pass);
    assert VisitAll(a, [Pass]) == a;
    assert VisitAll(e1, [inner]) == a;
    VisitForRange(Initial, 1, "i", [inner]);
    // the outer loop's children: the inner loop again, at depth 1
    var b := a.(currentNesting := 0, builtinCalls := ["range", "range"]);
    var e3 := EnterLoop(b, ForLoop, 2, Some("range"));
    VisitInert(e3, Pass);
    assert VisitAll(e3, [Pass]) == e3;
    VisitForRange(b, 2, "j", [Pass]);
    var c := e3.(currentNesting := 0, builtinCalls := ["range", "range", "range"]);
    VisitInert(c, Pass);
    assert VisitAll(c, [Pass]) == c;
    assert VisitAll(b, [inner]) == c;
    VisitWrapped(Initial, outer);
  }

  /** `while True:\n  pass` */
  lemma SingleWhileLoop()
    ensures AnalysisOf(Other([While(1, Other([]), [Pass], [])]))
         == ASTAnalysis([LoopInfo(WhileLoop, 1, 1, None)], [], 1, [], {}, {})
  {
    var w := While(1, Other([]), [Pass], []);
    var e := EnterLoop(Initial, WhileLoop, 1, None);
    VisitInert(e, Pass);
    assert VisitAll(e, [Pass]) == e;
    var h := e.(currentNesting := 0);
    assert Handle(Initial, w) == h;
    VisitInert(h, Pass);
    assert VisitAll(h, Children(w)) == h by {
      assert Children(w) == [Other([]), Pass];
      assert VisitAll(h, Children(w)) == VisitAll(Visit(h, Other([])), [Pass]);
    }
    VisitWrapped(Initial, w);
    assert Elements<string>([]) == {};
  }

  /** `k` loops over `range`, each the only statement of the previous one's body,
      the outermost on line `line`. */
  function LoopNest(k: nat, line: int): Node
    requires k >= 1
    decreases k
  {
    ForRange(line, "i", if k == 1 then [Pass] else [LoopNest(k - 1, line + 1)])
  }

  lemma LeafDepth(n: Node)
    requires n.Name? || n == Pass
    ensures FactsOf(n).depth == 0
  {
    assert Children(n) == [];
    assert FactsOfAll([]).depth == 0;
  }

  lemma PairDepth(a: Node, b: Node)
    ensures FactsOfAll([a, b]).depth == Max(FactsOf(a).depth, FactsOf(b).depth)
  {
    assert [a, b][1..] == [b];
    assert FactsOfAll([b]).depth == FactsOf(b).depth by {
      assert [b][1..] == [];
    }
  }

  lemma HeaderDepth(variable: string)
    ensures FactsOfAll([Name(variable), RangeCall()]).depth == 0
  {
    LeafDepth(Name("range"));
    LeafDepth(Pass);
    PairDepth(Name("range"), Pass);
    assert Children(RangeCall()) == [Name("range"), Pass];
    assert FactsOf(RangeCall()).depth == 0 by {
      assert Own(RangeCall()).depth == 0;
    }
    LeafDepth(Name(variable));
    PairDepth(Name(variable), RangeCall());
  }

  lemma {:induction false} LoopNestDepth(k: nat, line: int)
    requires k >= 1
    ensures FactsOf(LoopNest(k, line)).depth == k
    decreases k
  {
    var body := if k == 1 then [Pass] else [LoopNest(k - 1, line + 1)];
    if k == 1 {
      assert Children(Pass) == [];
    } else {
      LoopNestDepth(k - 1, line + 1);
    }
    assert FactsOfAll(body).depth == k - 1;
    HeaderDepth("i");
    FactsOfAllAppend([Name("i"), RangeCall()], body);
    assert Children(LoopNest(k, line)) == [Name("i"), RangeCall()] + body;
  }

  lemma WrappedDepth(n: Node)
    ensures FactsOf(Other([n])).depth == FactsOf(n).depth
  {
    assert [n][1..] == [];
    assert FactsOfAll([n]).depth == FactsOf(n).depth;
  }

  /** A `def f():` whose body is the single statement `n`. */
  function DefOf(n: Node): Node {
    FunctionDef("f", 1, 0, Pass, [n], [], [])
  }

  lemma DefDepth(n: Node)
    ensures FactsOf(DefOf(n)).depth == FactsOf(n).depth
  {
    LeafDepth(Pass);
    PairDepth(Pass, n);
    assert Children(DefOf(n)) == [Pass, n];
    assert Own(DefOf(n)).depth == 0;
  }

  /** `k` directly nested loops give `max_nesting_level` `k`. */
  lemma NestedLoopsMaxNesting(k: nat)
    requires k >= 1
    ensures AnalysisOf(Other([LoopNest(k, 1)])).maxNestingLevel == k
  {
    LoopNestDepth(k, 1);
    WrappedDepth(LoopNest(k, 1));
    ParsedNesting(Other([LoopNest(k, 1)]));
  }

  /** The same inside a `def`. */
  lemma NestedLoopsInDefMaxNesting(k: nat)
    requires k >= 1
    ensures AnalysisOf(Other([DefOf(LoopNest(k, 2))])).maxNestingLevel == k
  {
    LoopNestDepth(k, 2);
    DefDepth(LoopNest(k, 2));
    WrappedDepth(DefOf(LoopNest(k, 2)));
    ParsedNesting(Other([DefOf(LoopNest(k, 2))]));
  }

  function Pow2(k: nat): nat {
    if k == 0 then 1 else 2 * Pow2(k - 1)
  }

  lemma VisitSingle(s: ParserState, n: Node)
    ensures VisitAll(s, [n]) == Visit(s, n)
  {
    assert [n][1..] == [];
  }

  /** Walking a nest of `k` loops records `2^k - 1` loops: each loop's body is
      walked once by its handler and once more among its children. */
  lemma {:induction false} LoopNestRecords(s: ParserState, k: nat, line: int)
    requires k >= 1
    requires s.currentFunction != Some("range")
    ensures |Visit(s, LoopNest(k, line)).loops| == |s.loops| + Pow2(k) - 1
    decreases k
  {
    var body := if k == 1 then [Pass] else [LoopNest(k - 1, line + 1)];
    var e := EnterLoop(s, ForLoop, line, Some("range"));
    VisitSingle(e, body[0]);
    VisitRestores(e, body[0]);
    if k == 1 {
      VisitInert(e, Pass);
    } else {
      LoopNestRecords(e, k - 1, line + 1);
    }
    var h := ForLoopStep(s, LoopNest(k, line));
    VisitForRange(s, line, "i", body);
    var h' := h.(builtinCalls := h.builtinCalls + ["range"]);
    VisitSingle(h', body[0]);
    if k == 1 {
      VisitInert(h', Pass);
    } else {
      LoopNestRecords(h', k - 1, line + 1);
    }
  }

  /** The loop counts of the tests' nested snippets as the code produces them:
      3 records for two nested loops, 14 for three nested loops inside a `def`,
      whose body is walked once by its handler and once among its children. */
  lemma NestedSnippetLoopCounts()
    ensures |AnalysisOf(Other([LoopNest(2, 1)])).loops| == 3
    ensures |AnalysisOf(Other([DefOf(LoopNest(3, 2))])).loops| == 14
  {
    LoopNestRecords(Initial, 2, 1);
    VisitWrapped(Initial, LoopNest(2, 1));
    var d := DefOf(LoopNest(3, 2));
    var inF := Initial.(currentFunction := Some("f"));
    VisitSingle(inF, LoopNest(3, 2));
    LoopNestRecords(inF, 3, 2);
    var h := FunctionDefStep(Initial, d);
    assert Handle(Initial, d) == h;
    assert Children(d) == [Pass, LoopNest(3, 2)];
    VisitInert(h, Pass);
    assert VisitAll(h, [Pass, LoopNest(3, 2)]) == VisitAll(Visit(h, Pass), [LoopNest(3, 2)]);
    VisitSingle(h, LoopNest(3, 2));
    LoopNestRecords(h, 3, 2);
    VisitWrapped(Initial, d);
  }

  /** `k` loops over `range` one after the other, each with the body `pass`,
      the first on line `line`. */
  function Siblings(k: nat, line: int): seq<Node>
    decreases k
  {
    if k == 0 then [] else [ForRange(line, "i", [Pass])] + Siblings(k - 1, line + 1)
  }

  /** The records of those loops, all at level `level`. */
  function SiblingRecords(k: nat, line: int, level: int): (r: seq<LoopInfo>)
    ensures |r| == k
    ensures forall i :: 0 <= i < |r| ==> r[i].nestedLevel == level
    decreases k
  {
    if k == 0 then [] else [LoopInfo(ForLoop, line, level, Some("range"))] + SiblingRecords(k - 1, line + 1, level)
  }

  /** Walking sibling loops records each once, one level below the current depth. */
  lemma {:induction false} VisitSiblings(s: ParserState, k: nat, line: int)
    requires s.currentFunction != Some("range")
    ensures VisitAll(s, Siblings(k, line)).loops == s.loops + SiblingRecords(k, line, s.currentNesting + 1)
    ensures VisitAll(s, Siblings(k, line)).currentNesting == s.currentNesting
    ensures VisitAll(s, Siblings(k, line)).currentFunction == s.currentFunction
    decreases k
  {
    var ns := Siblings(k, line);
    if k > 0 {
      var f := ForRange(line, "i", [Pass]);
      var e := EnterLoop(s, ForLoop, line, Some("range"));
      VisitSingle(e, Pass);
      VisitInert(e, Pass);
      VisitForRange(s, line, "i", [Pass]);
      var h := ForLoopStep(s, f);
      var h' := h.(builtinCalls := h.builtinCalls + ["range"]);
      VisitSingle(h', Pass);
      VisitInert(h', Pass);
      var v := Visit(s, f);
      assert v.loops == s.loops + [LoopInfo(ForLoop, line, s.currentNesting + 1, Some("range"))];
      VisitRestores(s, f);
      assert ns[1..] == Siblings(k - 1, line + 1);
      VisitSiblings(v, k - 1, line + 1);
    }
  }

  /** `k` loops side by side at top level give exactly `k` records, all at level 1,
      and `max_nesting_level` 1. */
  lemma SiblingLoops(k: nat)
    requires k >= 1
    ensures var a := AnalysisOf(Other(Siblings(k, 1)));
      && |a.loops| == k
      && (forall i :: 0 <= i < |a.loops| ==> a.loops[i].nestedLevel == 1)
      && a.maxNestingLevel == 1
  {
    var t := Other(Siblings(k, 1));
    assert Handle(Initial, t) == Initial;
    VisitSiblings(Initial, k, 1);
    ParsedNesting(t);
  }

  /** The same `k` loops as the body of a `def` give `2k` records, all at level 1:
      the handler walks the body, and the walk of the def's children walks it again. */
  lemma SiblingLoopsInDef(k: nat)
    requires k >= 1
    ensures var a := AnalysisOf(Other([FunctionDef("f", 1, 0, Pass, Siblings(k, 2), [], [])]));
      && |a.loops| == 2 * k
      && (forall i :: 0 <= i < |a.loops| ==> a.loops[i].nestedLevel == 1)
      && a.maxNestingLevel == 1
  {
    var body := Siblings(k, 2);
    var d := FunctionDef("f", 1, 0, Pass, body, [], []);
    var inF := Initial.(currentFunction := Some("f"));
    VisitSiblings(inF, k, 2);
    var h := FunctionDefStep(Initial, d);
    assert Handle(Initial, d) == h;
    assert h.loops == SiblingRecords(k, 2, 1) && h.currentNesting == 0 && h.currentFunction == None;
    assert Children(d) == [Pass] + body;
    VisitAllAppend(h, [Pass], body);
    VisitSingle(h, Pass);
    VisitInert(h, Pass);
    VisitSiblings(h, k, 2);
    VisitWrapped(Initial, d);
    var a := AnalysisOf(Other([d]));
    assert a.loops == SiblingRecords(k, 2, 1) + SiblingRecords(k, 2, 1);
    ParsedNesting(Other([d]));
  }
}
