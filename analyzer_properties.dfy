/**
 * What the verdict says about the analysed tree itself: the structural estimate,
 * the key factors and the recommendations in terms of the tree's own loops, calls
 * and definitions, and how a failed advisory request is handled.
 */
module AnalyzerProperties {
  import opened Wrappers
  import opened Tree
  import opened Records
  import opened Facts
  import opened Walk
  import opened AstParser
  import opened ComplexityAnalyzer

  lemma NoSitesNoLoops(ls: seq<LoopInfo>)
    ensures Sites(ls) == {} <==> ls == []
  {
    if ls != [] {
      assert ls[0].Site() in Sites(ls);
    }
  }

  /** There are at least as many loop records as distinct loop sites. */
  lemma {:induction false} SitesBound(ls: seq<LoopInfo>)
    ensures |Sites(ls)| <= |ls|
    decreases |ls|
  {
    if ls != [] {
      var init := ls[..|ls| - 1];
      assert ls == init + [ls[|ls| - 1]];
      SitesSnoc(init, ls[|ls| - 1]);
      SitesBound(init);
    }
  }

  /** The structural estimate of a parsed tree: nothing when the tree has no loop,
      otherwise the class of its deepest chain of nested loops. */
  lemma ParsedEstimate(tree: Node)
    ensures EstimateLoopComplexity(AnalysisOf(tree).loops)
      == if FactsOf(tree).loops == {} then None else Some(PolynomialClass(FactsOf(tree).depth))
  {
    ParsedNesting(tree);
    ParsedLoops(tree);
    NoSitesNoLoops(AnalysisOf(tree).loops);
  }

  /** The key factors of a parsed tree: at least one loop record per loop, the
      deepest nesting, whether some definition calls itself, the builtins called. */
  lemma ParsedKeyFactors(tree: Node, op: Opinion)
    ensures var k := CombineAnalyses(AnalysisOf(tree), op).keyFactors;
      && k.loops >= |FactsOf(tree).loops|
      && (k.loops == 0 <==> FactsOf(tree).loops == {})
      && k.maxNesting == FactsOf(tree).depth
      && (k.recursion <==> FactsOf(tree).selfRecursive != {})
      && k.builtinCalls == FactsOf(tree).calls * BuiltinNames
  {
    var a := AnalysisOf(tree);
    ParsedNesting(tree);
    ParsedLoops(tree);
    ParsedRecursion(tree);
    ParsedBuiltinCalls(tree);
    SitesBound(a.loops);
    NoSitesNoLoops(a.loops);
    if a.recursiveCalls != [] {
      assert a.recursiveCalls[0] in Elements(a.recursiveCalls);
    }
  }

  /** The recommendations for a parsed tree: the nesting advice when its loops nest
      more than two deep, the sorting advice when it calls `sorted`, the recursion
      advice when some definition calls itself. */
  lemma ParsedRecommendations(tree: Node)
    ensures var r := Recommendations(AnalysisOf(tree));
      && (NestingAdvice(FactsOf(tree).depth) in r <==> FactsOf(tree).depth > 2)
      && (SortingAdvice in r <==> "sorted" in FactsOf(tree).calls)
      && (RecursionAdvice in r <==> FactsOf(tree).selfRecursive != {})
  {
    var a := AnalysisOf(tree);
    ParsedNesting(tree);
    ParsedRecursion(tree);
    ParsedBuiltinCalls(tree);
    if a.recursiveCalls != [] {
      assert a.recursiveCalls[0] in Elements(a.recursiveCalls);
    }
  }

  /** A failed advisory request (confidence 0.0) leaves the structural estimate in
      charge, with the opinion's `Unknown` space class and no explanation. */
  lemma FailedOpinionFallsBack(a: ASTAnalysis, message: string)
    ensures var v := CombineAnalyses(a, FailureOpinion(message));
      && v.analysisMethod == AstEstimate
      && v.time == EstimateLoopComplexity(a.loops).GetOr("O(1)")
      && v.space == "Unknown"
      && v.confidence == 0.0
      && v.explanation == "No detailed explanation available"
      && v.bottlenecks == []
  {
  }

  /** Raising the opinion's confidence never takes the decision away from it. */
  lemma ConfidenceMonotone(a: ASTAnalysis, op: Opinion, c: real)
    requires CombineAnalyses(a, op).analysisMethod != AstEstimate
    requires c >= Confidence(op)
    ensures CombineAnalyses(a, op.(confidence := Some(c))).analysisMethod != AstEstimate
    ensures CombineAnalyses(a, op.(confidence := Some(c))).time == CombineAnalyses(a, op).time
  {
  }
}
