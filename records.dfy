/** The records the parser produces: one per loop, one per function definition, and the summary. */
module Records {
  import opened Wrappers
  import opened Tree

  /** The `type` of a loop record: `'for'` or `'while'`. */
  datatype LoopKind = ForLoop | WhileLoop {
    function Label(): string {
      match this
      case ForLoop => "for"
      case WhileLoop => "while"
    }
  }

  /** `LoopInfo`: kind, line, the depth counting enclosing loops at the time of
      recording, and the name of the callee producing the iterable, if any. */
  datatype LoopInfo = LoopInfo(kind: LoopKind, line: int, nestedLevel: int, iteratorType: Option<string>)
  {
    /** What a loop record says about the loop itself, leaving out its depth. */
    function Site(): LoopSite {
      LoopSite(kind, line, iteratorType)
    }
  }

  datatype LoopSite = LoopSite(kind: LoopKind, line: int, iteratorType: Option<string>)

  /** `FunctionInfo`: name, line, number of positional parameters. */
  datatype FunctionInfo = FunctionInfo(name: string, line: int, argsCount: nat)

  /** `ASTAnalysis`. The two collections the parser deduplicates through `set(...)`
      come back in no particular order, so they are sets here. */
  datatype ASTAnalysis = ASTAnalysis(
    loops: seq<LoopInfo>,
    functions: seq<FunctionInfo>,
    maxNestingLevel: int,
    recursiveCalls: seq<string>,
    builtinCalls: set<string>,
    dataStructures: set<string>)

  /** The iterator hint of a `for` loop: the bare name called to produce the iterable. */
  function IteratorType(iter: Node): (r: Option<string>)
    ensures r.Some? <==> iter.Call? && iter.func.Name?
  {
    if iter.Call? && iter.func.Name? then Some(iter.func.id) else None
  }

  /** The largest `nestedLevel` of a non-empty list of loop records. */
  function MaxLevel(ls: seq<LoopInfo>): (m: int)
    requires ls != []
    ensures exists i :: 0 <= i < |ls| && ls[i].nestedLevel == m
    ensures forall i :: 0 <= i < |ls| ==> ls[i].nestedLevel <= m
    decreases |ls|
  {
    var last := ls[|ls| - 1].nestedLevel;
    if |ls| == 1 then last else Max(MaxLevel(ls[..|ls| - 1]), last)
  }

  function Elements<T>(s: seq<T>): set<T> {
    set x | x in s
  }

  lemma ElementsSnoc<T>(s: seq<T>, x: T)
    ensures Elements(s + [x]) == Elements(s) + {x}
  {
    assert forall y :: y in s + [x] <==> y in s || y == x;
  }

  /** The loop sites a list of loop records mentions. */
  function Sites(ls: seq<LoopInfo>): set<LoopSite> {
    set l | l in ls :: l.Site()
  }

  lemma SitesSnoc(ls: seq<LoopInfo>, x: LoopInfo)
    ensures Sites(ls + [x]) == Sites(ls) + {x.Site()}
  {
    assert forall y :: y in ls + [x] <==> y in ls || y == x;
  }
}
