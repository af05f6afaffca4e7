/**
 * `ASTParser`: an object whose fields the walk updates in place. Each method is
 * proved to leave the fields as the corresponding function of `Walk` says, and
 * the lemmas below state what the returned `ASTAnalysis` means for the tree.
 */
module AstParser {
  import opened Wrappers
  import opened Tree
  import opened Records
  import opened Facts
  import opened Walk
  import opened WalkProperties

  /** What the front-end (`ast.parse`) delivers: a tree, a `SyntaxError` with its
      text, or any other exception it raises, which `parse` lets through. */
  datatype FrontEnd = Parsed(tree: Node) | SyntaxError(detail: string) | Raised(error: PyError)

  /** The analysis `parse` returns for a tree. */
  function AnalysisOf(tree: Node): ASTAnalysis {
    Summary(Visit(Initial, tree))
  }

  /** What `parse` returns or raises. */
  function ParseOutcome(src: FrontEnd): Result<ASTAnalysis, PyError> {
    match src
    case Parsed(tree) => Success(AnalysisOf(tree))
    case SyntaxError(detail) => Failure(ValueError("Invalid Python syntax: " + detail))
    case Raised(error) => Failure(error)
  }

  class ASTParser {
    var currentNesting: int
    var maxNesting: int
    var loops: seq<LoopInfo>
    var functions: seq<FunctionInfo>
    var recursiveCalls: seq<string>
    var builtinCalls: seq<string>
    var dataStructures: seq<string>
    var currentFunction: Option<string>

    ghost function State(): ParserState
      reads this
    {
      ParserState(currentNesting, maxNesting, loops, functions, recursiveCalls,
                  builtinCalls, dataStructures, currentFunction)
    }

    constructor()
      ensures State() == Initial
    {
      currentNesting, maxNesting := 0, 0;
      loops, functions := [], [];
      recursiveCalls, builtinCalls, dataStructures := [], [], [];
      currentFunction := None;
    }

    /** `parse`: clears the state, walks the tree, and collects the result. What it
        returns depends on `src` alone, whatever earlier calls left behind. */
    method Parse(src: FrontEnd) returns (r: Result<ASTAnalysis, PyError>)
      modifies this
      ensures r == ParseOutcome(src)
      ensures State() == if src.Parsed? then Visit(Initial, src.tree) else Initial
    {
      Reset();
      match src {
        case Parsed(tree) =>
          AnalyzeNode(tree);
          r := Success(ASTAnalysis(loops, functions, maxNesting, recursiveCalls,
                                   Elements(builtinCalls), Elements(dataStructures)));
        case SyntaxError(detail) =>
          r := Failure(ValueError("Invalid Python syntax: " + detail));
        case Raised(error) =>
          r := Failure(error);
      }
    }

    /** `_reset` */
    method Reset()
      modifies this
      ensures State() == Initial
    {
      currentNesting, maxNesting := 0, 0;
      loops, functions := [], [];
      recursiveCalls, builtinCalls, dataStructures := [], [], [];
      currentFunction := None;
    }

    /** `_analyze_node`: the node's own handler, then every child. */
    method AnalyzeNode(n: Node)
      modifies this
      ensures State() == Visit(old(State()), n)
      decreases Size(n), 2
    {
      if n.For? {
        HandleForLoop(n);
      } else if n.While? {
        HandleWhileLoop(n);
      } else if n.FunctionDef? {
        HandleFunctionDef(n);
      } else if n.Call? {
        HandleFunctionCall(n);
      } else if n.ListLit? || n.DictLit? || n.SetLit? {
        HandleDataStructure(n);
      }
      ghost var handled := State();
      assert handled == Handle(old(State()), n);
      var children := Children(n);
      ChildrenSmaller(n);
      var i := 0;
      while i < |children|
        invariant 0 <= i <= |children|
        invariant VisitAll(State(), children[i..]) == VisitAll(handled, children)
      {
        ElementSmaller(children, i);
        assert children[i..][1..] == children[i + 1..];
        AnalyzeNode(children[i]);
        i := i + 1;
      }
    }

    /** `_handle_for_loop` */
    method HandleForLoop(n: Node)
      requires n.For?
      modifies this
      ensures State() == ForLoopStep(old(State()), n)
      decreases Size(n), 1
    {
      currentNesting := currentNesting + 1;
      maxNesting := Max(maxNesting, currentNesting);
      var iteratorType := None;
      if n.iter.Call? && n.iter.func.Name? {
        iteratorType := Some(n.iter.func.id);
      }
      loops := loops + [LoopInfo(ForLoop, n.line, currentNesting, iteratorType)];
      ghost var entered := State();
      var i := 0;
      while i < |n.body|
        invariant 0 <= i <= |n.body|
        invariant VisitAll(State(), n.body[i..]) == VisitAll(entered, n.body)
      {
        ElementSmaller(n.body, i);
        assert n.body[i..][1..] == n.body[i + 1..];
        AnalyzeNode(n.body[i]);
        i := i + 1;
      }
      currentNesting := currentNesting - 1;
    }

    /** `_handle_while_loop` */
    method HandleWhileLoop(n: Node)
      requires n.While?
      modifies this
      ensures State() == WhileLoopStep(old(State()), n)
      decreases Size(n), 1
    {
      currentNesting := currentNesting + 1;
      maxNesting := Max(maxNesting, currentNesting);
      loops := loops + [LoopInfo(WhileLoop, n.line, currentNesting, None)];
      ghost var entered := State();
      var i := 0;
      while i < |n.body|
        invariant 0 <= i <= |n.body|
        invariant VisitAll(State(), n.body[i..]) == VisitAll(entered, n.body)
      {
        ElementSmaller(n.body, i);
        assert n.body[i..][1..] == n.body[i + 1..];
        AnalyzeNode(n.body[i]);
        i := i + 1;
      }
      currentNesting := currentNesting - 1;
    }

    /** `_handle_function_def`: the current function is saved, replaced for the
        body, and restored afterwards. */
    method HandleFunctionDef(n: Node)
      requires n.FunctionDef?
      modifies this
      ensures State() == FunctionDefStep(old(State()), n)
      decreases Size(n), 1
    {
      var previous := currentFunction;
      currentFunction := Some(n.name);
      var info := FunctionInfo(n.name, n.line, n.argCount);
      ghost var entered := State();
      var i := 0;
      while i < |n.body|
        invariant 0 <= i <= |n.body|
        invariant VisitAll(State(), n.body[i..]) == VisitAll(entered, n.body)
      {
        ElementSmaller(n.body, i);
        assert n.body[i..][1..] == n.body[i + 1..];
        AnalyzeNode(n.body[i]);
        i := i + 1;
      }
      functions := functions + [info];
      currentFunction := previous;
    }

    /** `_handle_function_call` */
    method HandleFunctionCall(n: Node)
      requires n.Call?
      modifies this
      ensures State() == CallStep(old(State()), n)
    {
      if n.func.Name? {
        var name := n.func.id;
        if currentFunction.Some? && currentFunction.value != "" && name == currentFunction.value {
          recursiveCalls := recursiveCalls + [name];
        }
        if name in BuiltinNames {
          builtinCalls := builtinCalls + [name];
        }
      }
    }

    /** `_handle_data_structure` */
    method HandleDataStructure(n: Node)
      requires n.ListLit? || n.DictLit? || n.SetLit?
      modifies this
      ensures State() == DataStructureStep(old(State()), n)
    {
      if n.ListLit? {
        dataStructures := dataStructures + ["list"];
      } else if n.DictLit? {
        dataStructures := dataStructures + ["dict"];
      } else if n.SetLit? {
        dataStructures := dataStructures + ["set"];
      }
    }
  }

  // ---------------------------------------------------------------------------
  // What the analysis of a tree says about the tree

  /** The walk ends at depth 0 and outside any function. */
  lemma ParseEndsAtTopLevel(tree: Node)
    ensures Visit(Initial, tree).currentNesting == 0
    ensures Visit(Initial, tree).currentFunction == None
  {
    VisitRestores(Initial, tree);
  }

  /** `max_nesting_level` is the deepest chain of loops in the tree, and the largest
      recorded level (0 with no loops); every level lies between 1 and it. */
  lemma ParsedNesting(tree: Node)
    ensures var a := AnalysisOf(tree);
      && a.maxNestingLevel == FactsOf(tree).depth
      && (a.loops == [] ==> a.maxNestingLevel == 0)
      && (a.loops != [] ==> a.maxNestingLevel == MaxLevel(a.loops))
      && (forall i :: 0 <= i < |a.loops| ==> 1 <= a.loops[i].nestedLevel <= a.maxNestingLevel)
  {
    VisitDepth(Initial, tree);
    VisitConsistent(Initial, tree);
  }

  /** The loop records are exactly the tree's loops (each at least once): kind,
      line and iterator hint, the hint being absent on every `while` record. */
  lemma ParsedLoops(tree: Node)
    ensures var a := AnalysisOf(tree);
      && Sites(a.loops) == FactsOf(tree).loops
      && (forall i :: 0 <= i < |a.loops| && a.loops[i].kind == WhileLoop ==> a.loops[i].iteratorType == None)
  {
    VisitCollected(Initial, tree);
    VisitConsistent(Initial, tree);
  }

  /** The function records are exactly the tree's definitions (each at least once). */
  lemma ParsedFunctions(tree: Node)
    ensures Elements(AnalysisOf(tree).functions) == FactsOf(tree).defs
  {
    VisitCollected(Initial, tree);
  }

  /** `builtin_calls` holds exactly the listed builtins the tree calls by bare name. */
  lemma ParsedBuiltinCalls(tree: Node)
    ensures AnalysisOf(tree).builtinCalls == FactsOf(tree).calls * BuiltinNames
    ensures AnalysisOf(tree).builtinCalls <= {"sorted", "max", "min", "sum", "len", "range"}
  {
    VisitCollected(Initial, tree);
  }

  /** `data_structures` holds exactly the literal kinds the tree builds. */
  lemma ParsedDataStructures(tree: Node)
    ensures AnalysisOf(tree).dataStructures == FactsOf(tree).containers
    ensures AnalysisOf(tree).dataStructures <= {"list", "dict", "set"}
  {
    VisitCollected(Initial, tree);
    ContainerKinds(tree);
  }

  /** `recursive_calls` names exactly the definitions whose body calls their own name. */
  lemma ParsedRecursion(tree: Node)
    ensures Elements(AnalysisOf(tree).recursiveCalls) == FactsOf(tree).selfRecursive
  {
    VisitRecursion(Initial, tree);
  }
}
