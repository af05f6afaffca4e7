/**
 * `ComplexityAnalyzer`: the structural estimate drawn from the loop records, the
 * arbitration between it and an advisory opinion, the recommendations, and the
 * `analyze` entry point that rejects blank input and turns a parse failure into
 * an error record.
 */
module ComplexityAnalyzer {
  import opened Wrappers
  import opened Records
  import opened Text
  import opened AstParser

  /** The advisory opinion (the dictionary the language-model client returns).
      Each field may be missing from it. */
  datatype Opinion = Opinion(
    time: Option<string>,
    space: Option<string>,
    confidence: Option<real>,
    explanation: Option<string>,
    bottlenecks: Option<seq<string>>,
    reasoning: Option<string>,
    error: Option<string>)

  /** The opinion the client returns when its request fails. */
  function FailureOpinion(message: string): Opinion {
    Opinion(Some("Unknown"), Some("Unknown"), Some(0.0), None, None, None,
            Some("LLM analysis failed: " + message))
  }

  /** `analysis_method` */
  datatype Method = HighConfidence | Validated | AstEstimate {
    function Label(): string {
      match this
      case HighConfidence => "LLM (high confidence)"
      case Validated => "LLM + AST validation"
      case AstEstimate => "AST-based estimation"
    }
  }

  /** The three methods report under different names, and the loop kinds too. */
  lemma LabelsDistinct()
    ensures forall m: Method, m': Method :: m.Label() == m'.Label() ==> m == m'
    ensures forall k: LoopKind, k': LoopKind :: k.Label() == k'.Label() ==> k == k'
  {
    assert HighConfidence.Label()[0] == 'L' && Validated.Label()[0] == 'L' && AstEstimate.Label()[0] == 'A';
    assert HighConfidence.Label()[4] == '(' && Validated.Label()[4] == '+';
    assert ForLoop.Label()[0] == 'f' && WhileLoop.Label()[0] == 'w';
  }

  /** `key_factors` */
  datatype KeyFactors = KeyFactors(loops: nat, maxNesting: int, recursion: bool, builtinCalls: set<string>)

  /** `final_analysis` */
  datatype Verdict = Verdict(
    time: string,
    space: string,
    confidence: real,
    analysisMethod: Method,
    keyFactors: KeyFactors,
    explanation: string,
    bottlenecks: seq<string>,
    recommendations: seq<string>)

  /** The result of `analyze` once the input is not blank: an error record when
      parsing failed (the three analysis fields being `None`), or the full record. */
  datatype Report =
    | ParseFailure(error: string)
    | Complete(astAnalysis: ASTAnalysis, llmAnalysis: Opinion, finalAnalysis: Verdict, code: string)

  // ---------------------------------------------------------------------------
  // Structural estimate

  /** The polynomial class of a loop depth. */
  function PolynomialClass(d: int): (r: string)
    ensures r != []
    ensures |r| >= 4 && r[..3] == "O(n"
  {
    if d == 1 then "O(n)"
    else if d == 2 then "O(n\U{00B2})"
    else if d == 3 then "O(n\U{00B3})"
    else "O(n^" + Decimal(d) + ")"
  }

  /** Different depths get different classes. */
  lemma PolynomialClassInjective(d: int, e: int)
    requires PolynomialClass(d) == PolynomialClass(e)
    ensures d == e
  {
    var p, q := PolynomialClass(d), PolynomialClass(e);
    if d !in {1, 2, 3} && e !in {1, 2, 3} {
      assert p[4..|p| - 1] == Decimal(d);
      assert q[4..|q| - 1] == Decimal(e);
      DecimalInjective(d, e);
    }
  }

  /** `_estimate_loop_complexity`: nothing without loops, else the class of the
      deepest recorded level. */
  function EstimateLoopComplexity(loops: seq<LoopInfo>): (r: Option<string>)
    ensures r.None? <==> loops == []
    ensures r.Some? ==> r.value != [] && r.value == PolynomialClass(MaxLevel(loops))
  {
    if loops == [] then None else Some(PolynomialClass(MaxLevel(loops)))
  }

  // ---------------------------------------------------------------------------
  // Recommendations

  function NestingAdvice(depth: int): string {
    "Consider optimizing nested loops (depth: " + Decimal(depth) + "). "
      + "Look for opportunities to reduce nesting or use more efficient algorithms."
  }

  const SortingAdvice: string := "Consider if sorting is necessary or if a more efficient approach exists."

  const RecursionAdvice: string := "Recursive functions detected. Consider memoization or iterative approaches "
    + "for better performance."

  /** Where an advice stands in the fixed order nesting, sorting, recursion. */
  function Rank(advice: string): nat {
    if advice == SortingAdvice then 1 else if advice == RecursionAdvice then 2 else 0
  }

  lemma AdvicesDiffer(depth: int)
    ensures NestingAdvice(depth) != SortingAdvice
    ensures NestingAdvice(depth) != RecursionAdvice
    ensures SortingAdvice != RecursionAdvice
  {
    // the nesting advice is the longest, whatever the depth
    assert |SortingAdvice| == 72;
    assert |RecursionAdvice| == 98;
    assert |NestingAdvice(depth)| == 118 + |Decimal(depth)|;
  }

  /** What `_generate_recommendations` returns: at most three advices, each present
      exactly when its condition holds, in the fixed order and without repeats. */
  function Recommendations(a: ASTAnalysis): (r: seq<string>)
    ensures |r| <= 3
    ensures NestingAdvice(a.maxNestingLevel) in r <==> a.maxNestingLevel > 2
    ensures SortingAdvice in r <==> "sorted" in a.builtinCalls
    ensures RecursionAdvice in r <==> a.recursiveCalls != []
    ensures forall x :: x in r ==> x in {NestingAdvice(a.maxNestingLevel), SortingAdvice, RecursionAdvice}
    ensures forall i, j :: 0 <= i < j < |r| ==> Rank(r[i]) < Rank(r[j])
  {
    AdvicesDiffer(a.maxNestingLevel);
    (if a.maxNestingLevel > 2 then [NestingAdvice(a.maxNestingLevel)] else [])
      + (if "sorted" in a.builtinCalls then [SortingAdvice] else [])
      + (if a.recursiveCalls != [] then [RecursionAdvice] else [])
  }

  /** `_generate_recommendations`, appending to a list under three conditions. */
  method GenerateRecommendations(a: ASTAnalysis) returns (recommendations: seq<string>)
    ensures recommendations == Recommendations(a)
  {
    recommendations := [];
    if a.maxNestingLevel > 2 {
      recommendations := recommendations + [NestingAdvice(a.maxNestingLevel)];
    }
    if "sorted" in a.builtinCalls {
      recommendations := recommendations + [SortingAdvice];
    }
    if a.recursiveCalls != [] {
      recommendations := recommendations + [RecursionAdvice];
    }
  }

  // ---------------------------------------------------------------------------
  // Arbitration

  /** The opinion's confidence, 0.5 when it gives none. */
  function Confidence(op: Opinion): real {
    op.confidence.GetOr(0.5)
  }

  /** `_combine_analyses`. Above 0.8 the opinion's time wins outright; above 0.5 it
      wins only when there are loops to back it; otherwise the structural estimate
      (or `O(1)` without loops) stands. Missing opinion fields take their defaults,
      and the confidence is passed through unchanged. */
  function CombineAnalyses(a: ASTAnalysis, op: Opinion): (v: Verdict)
    ensures v.analysisMethod == HighConfidence <==> Confidence(op) > 0.8
    ensures v.analysisMethod == Validated <==> 0.5 < Confidence(op) <= 0.8 && a.loops != []
    ensures v.analysisMethod == AstEstimate <==> Confidence(op) <= 0.5 || (Confidence(op) <= 0.8 && a.loops == [])
    ensures v.analysisMethod != AstEstimate ==> v.time == op.time.GetOr("O(?)")
    ensures v.analysisMethod == AstEstimate && a.loops == [] ==> v.time == "O(1)"
    ensures v.analysisMethod == AstEstimate && a.loops != [] ==> v.time == PolynomialClass(MaxLevel(a.loops))
    ensures v.confidence == Confidence(op)
    ensures op.confidence.Some? ==> v.confidence == op.confidence.value
    ensures v.space == (if op.space.Some? then op.space.value else "O(1)")
    ensures v.explanation == (if op.explanation.Some? then op.explanation.value else "No detailed explanation available")
    ensures v.bottlenecks == (if op.bottlenecks.Some? then op.bottlenecks.value else [])
    ensures v.keyFactors.loops == |a.loops| && v.keyFactors.maxNesting == a.maxNestingLevel
    ensures v.keyFactors.recursion <==> |a.recursiveCalls| > 0
    ensures v.keyFactors.builtinCalls == a.builtinCalls
    ensures v.recommendations == Recommendations(a)
  {
    var loopComplexity := EstimateLoopComplexity(a.loops);
    var llmTime := op.time.GetOr("O(?)");
    var llmConfidence := Confidence(op);
    var (finalComplexity, analysisMethod) :=
      if llmConfidence > 0.8 then (llmTime, HighConfidence)
      else if loopComplexity.Some? && llmConfidence > 0.5 then (llmTime, Validated)
      else (loopComplexity.GetOr("O(1)"), AstEstimate);
    Verdict(
      finalComplexity,
      op.space.GetOr("O(1)"),
      llmConfidence,
      analysisMethod,
      KeyFactors(|a.loops|, a.maxNestingLevel, |a.recursiveCalls| > 0, a.builtinCalls),
      op.explanation.GetOr("No detailed explanation available"),
      op.bottlenecks.GetOr([]),
      Recommendations(a))
  }

  // ---------------------------------------------------------------------------
  // Entry point

  /** What `analyze` returns or raises, given what the front-end makes of the code
      and the opinion the client would return. */
  function AnalysisReport(code: string, front: FrontEnd, op: Opinion): (r: Result<Report, PyError>)
    ensures r.Failure? <==> Blank(code)
    ensures r.Failure? ==> r.error == ValueError("Code cannot be empty")
    ensures r.Success? && r.value.ParseFailure? <==> !Blank(code) && ParseOutcome(front).Failure?
    ensures r.Success? && r.value.ParseFailure? ==>
      r.value.error == "AST parsing failed: " + ParseOutcome(front).error.message
    ensures r.Success? && r.value.Complete? ==>
      && front.Parsed?
      && r.value.astAnalysis == AnalysisOf(front.tree)
      && r.value.llmAnalysis == op
      && r.value.finalAnalysis == CombineAnalyses(AnalysisOf(front.tree), op)
      && r.value.code == code
  {
    if Blank(code) then Failure(ValueError("Code cannot be empty"))
    else
      match ParseOutcome(front)
      case Failure(e) => Success(ParseFailure("AST parsing failed: " + e.message))
      case Success(a) => Success(Complete(a, op, CombineAnalyses(a, op), code))
  }

  class ComplexityAnalyzer {
    const astParser: ASTParser

    constructor()
      ensures fresh(astParser)
      ensures astParser.State() == Walk.Initial
    {
      astParser := new ASTParser();
    }

    /** `analyze`. The blank-input check comes before any parsing, so a rejected
        input leaves the parser untouched. */
    method Analyze(code: string, front: FrontEnd, op: Opinion) returns (r: Result<Report, PyError>)
      modifies astParser
      ensures r == AnalysisReport(code, front, op)
      ensures Blank(code) ==> astParser.State() == old(astParser.State())
      ensures !Blank(code) ==>
        astParser.State() == if front.Parsed? then Walk.Visit(Walk.Initial, front.tree) else Walk.Initial
    {
      if code == [] || Strip(code) == [] {
        BlankIffStripEmpty(code);
        return Failure(ValueError("Code cannot be empty"));
      }
      BlankIffStripEmpty(code);
      var parsed := astParser.Parse(front);
      match parsed {
        case Failure(e) =>
          return Success(ParseFailure("AST parsing failed: " + e.message));
        case Success(a) =>
          var finalAnalysis := CombineAnalyses(a, op);
          return Success(Complete(a, op, finalAnalysis, code));
      }
    }
  }
}
