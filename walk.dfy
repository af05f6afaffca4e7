/**
 * The parser's walk as a function of its state: what each of `ASTParser`'s
 * methods does to the parser's fields, written over an immutable state value.
 * `Visit` is `_analyze_node`: the node's own handler first, then every child in
 * `ast.iter_child_nodes` order. The loop and definition handlers walk the body
 * themselves, so a body is walked twice: once by its handler and once more among
 * the node's children, at the outer depth and the outer current function.
 */
module Walk {
  import opened Wrappers
  import opened Tree
  import opened Records

  /** The fields of an `ASTParser`. */
  datatype ParserState = ParserState(
    currentNesting: int,
    maxNesting: int,
    loops: seq<LoopInfo>,
    functions: seq<FunctionInfo>,
    recursiveCalls: seq<string>,
    builtinCalls: seq<string>,
    dataStructures: seq<string>,
    currentFunction: Option<string>)

  /** The state `__init__` and `_reset` establish. */
  const Initial := ParserState(0, 0, [], [], [], [], [], None)

  /** The builtins whose calls are recorded. */
  const BuiltinNames: set<string> := {"sorted", "max", "min", "sum", "len", "range"}

  /** Python truthiness of `current_function`: set, and not the empty string. */
  predicate InFunction(current: Option<string>) {
    current.Some? && current.value != ""
  }

  function Visit(s: ParserState, n: Node): ParserState
    decreases Size(n), 2
  {
    ChildrenSmaller(n);
    VisitAll(Handle(s, n), Children(n))
  }

  function VisitAll(s: ParserState, ns: seq<Node>): ParserState
    decreases SizeSeq(ns), 3
  {
    if ns == [] then s else VisitAll(Visit(s, ns[0]), ns[1..])
  }

  /** The type dispatch at the head of `_analyze_node`. */
  function Handle(s: ParserState, n: Node): ParserState
    decreases Size(n), 1
  {
    match n
    case For(_, _, _, _, _) => ForLoopStep(s, n)
    case While(_, _, _, _) => WhileLoopStep(s, n)
    case FunctionDef(_, _, _, _, _, _, _) => FunctionDefStep(s, n)
    case Call(_, _, _) => CallStep(s, n)
    case ListLit(_) => DataStructureStep(s, n)
    case DictLit(_) => DataStructureStep(s, n)
    case SetLit(_) => DataStructureStep(s, n)
    case _ => s
  }

  /** The shared head of both loop handlers: one level deeper, the running
      maximum updated, and the loop recorded at the new depth. */
  function EnterLoop(s: ParserState, kind: LoopKind, line: int, iteratorType: Option<string>): ParserState {
    var level := s.currentNesting + 1;
    s.(currentNesting := level, maxNesting := Max(s.maxNesting, level),
       loops := s.loops + [LoopInfo(kind, line, level, iteratorType)])
  }

  /** `_handle_for_loop` */
  function ForLoopStep(s: ParserState, n: Node): ParserState
    requires n.For?
    decreases Size(n), 0
  {
    var walked := VisitAll(EnterLoop(s, ForLoop, n.line, IteratorType(n.iter)), n.body);
    walked.(currentNesting := walked.currentNesting - 1)
  }

  /** `_handle_while_loop` */
  function WhileLoopStep(s: ParserState, n: Node): ParserState
    requires n.While?
    decreases Size(n), 0
  {
    var walked := VisitAll(EnterLoop(s, WhileLoop, n.line, None), n.body);
    walked.(currentNesting := walked.currentNesting - 1)
  }

  /** `_handle_function_def` */
  function FunctionDefStep(s: ParserState, n: Node): ParserState
    requires n.FunctionDef?
    decreases Size(n), 0
  {
    var walked := VisitAll(s.(currentFunction := Some(n.name)), n.body);
    walked.(functions := walked.functions + [FunctionInfo(n.name, n.line, n.argCount)],
            currentFunction := s.currentFunction)
  }

  /** `_handle_function_call` */
  function CallStep(s: ParserState, n: Node): ParserState
    requires n.Call?
  {
    if !n.func.Name? then s
    else
      var name := n.func.id;
      var s' := if InFunction(s.currentFunction) && name == s.currentFunction.value
                then s.(recursiveCalls := s.recursiveCalls + [name]) else s;
      if name in BuiltinNames then s'.(builtinCalls := s'.builtinCalls + [name]) else s'
  }

  /** `_handle_data_structure` */
  function DataStructureStep(s: ParserState, n: Node): ParserState
    requires n.ListLit? || n.DictLit? || n.SetLit?
  {
    var kind := if n.ListLit? then "list" else if n.DictLit? then "dict" else "set";
    s.(dataStructures := s.dataStructures + [kind])
  }

  /** The analysis `parse` returns from the state after the walk. */
  function Summary(s: ParserState): ASTAnalysis {
    ASTAnalysis(s.loops, s.functions, s.maxNesting, s.recursiveCalls,
                Elements(s.builtinCalls), Elements(s.dataStructures))
  }
}
