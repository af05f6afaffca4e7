/**
 * The analyzer on the repository's test snippet and sample programs: the
 * integration scenario with a confident opinion, nested loops of any depth, and
 * a recursive fibonacci.
 */
module AnalyzerExamples {
  import opened Wrappers
  import opened Tree
  import opened Records
  import opened Facts
  import opened Text
  import opened AstParser
  import opened ParserExamples
  import opened ComplexityAnalyzer
  import opened AnalyzerProperties

  /** The opinion the integration test substitutes for the client. */
  const TestOpinion := Opinion(Some("O(n)"), Some("O(1)"), Some(0.95), Some("Test"), Some([]), Some("Test"), None)

  /** `for i in range(10): pass` with a confident opinion of `O(n)`. */
  lemma IntegrationScenario()
    ensures var r := AnalysisReport("for i in range(10): pass", Parsed(Other([ForRange(1, "i", [Pass])])), TestOpinion);
      && r.Success? && r.value.Complete?
      && r.value.finalAnalysis.time == "O(n)"
      && r.value.finalAnalysis.confidence == 0.95
      && r.value.finalAnalysis.analysisMethod == HighConfidence
      && r.value.finalAnalysis.keyFactors == KeyFactors(1, 1, false, {"range"})
      && r.value.finalAnalysis.recommendations == []
  {
    var code := "for i in range(10): pass";
    assert !IsPythonWhitespace(code[0]);
    SingleForLoop();
  }

  /** `k` directly nested loops are estimated as the `k`-th power; past depth 2 the
      nesting advice, carrying the depth, is given. `k` = 2 and 3 are the loop
      depths of the samples' bubble sort and matrix multiplication. */
  lemma NestedLoopsVerdict(k: nat, op: Opinion)
    requires k >= 1
    ensures var a := AnalysisOf(Other([LoopNest(k, 1)]));
      && EstimateLoopComplexity(a.loops) == Some(PolynomialClass(k))
      && (NestingAdvice(k) in Recommendations(a) <==> k > 2)
      && (Confidence(op) <= 0.5 ==> CombineAnalyses(a, op).time == PolynomialClass(k))
  {
    NestedLoopsMaxNesting(k);
    ParsedNesting(Other([LoopNest(k, 1)]));
  }

  /** The classes of the samples' loop depths beyond the three named ones. */
  lemma PolynomialClassExamples()
    ensures PolynomialClass(4) == "O(n^4)"
    ensures PolynomialClass(12) == "O(n^12)"
  {
    assert Decimal(4) == "4";
    assert Decimal(12) == "12" by {
      assert NatDigits(12) == NatDigits(1) + ['2'];
    }
  }

  /** `<name>(n - 1)`; operators and constants are inert `Other` leaves. */
  function SelfCall(name: string): Node {
    Call(Name(name), [Other([Name("n"), Other([]), Other([])])], [])
  }

  /** `def <name>(n):  if n <= 1: return n;  return <name>(n - 1) + <name>(n - 2)`,
      the samples' fibonacci. */
  function Fibonacci(name: string): Node {
    FunctionDef(name, 1, 1, Other([Other([])]),
      [Other([Other([Name("n"), Other([]), Other([])]), Other([Name("n")])]),
       Other([Other([SelfCall(name), Other([]), SelfCall(name)])])], [], [])
  }

  lemma FibonacciFacts(name: string)
    requires name != ""
    ensures name in FactsOf(Other([Fibonacci(name)])).selfRecursive
  {
    var c := SelfCall(name);
    assert name in Own(c).calls;
    var sum := Other([c, Other([]), c]);
    assert Children(sum)[0] == c;
    ChildCovered(sum, 0);
    var ret := Other([sum]);
    assert Children(ret)[0] == sum;
    ChildCovered(ret, 0);
    var f := Fibonacci(name);
    assert f.body[1] == ret;
    ElementCovered(f.body, 1);
    assert name in Own(f).selfRecursive;
    var m := Other([f]);
    assert Children(m)[0] == f;
    ChildCovered(m, 0);
  }

  /** The samples' recursive fibonacci is reported as recursive and draws the
      recursion advice. */
  lemma FibonacciIsRecursive(op: Opinion)
    ensures var a := AnalysisOf(Other([Fibonacci("fibonacci")]));
      && "fibonacci" in a.recursiveCalls
      && RecursionAdvice in CombineAnalyses(a, op).recommendations
      && CombineAnalyses(a, op).keyFactors.recursion
  {
    var m := Other([Fibonacci("fibonacci")]);
    FibonacciFacts("fibonacci");
    ParsedRecursion(m);
    ParsedKeyFactors(m, op);
    ParsedRecommendations(m);
  }
}
