# Time-complexity estimator: the structural walker and the arbitration policy

This project is a Dafny model of the two core pieces of the `time-complexity-estimator`
Python project.

**`ASTParser`** (`core/ast_parser.py`) walks a Python syntax tree. As it goes it records:
- every loop, with its kind, line, nesting level and iterator hint;
- every function definition;
- every call of the enclosing function's own name;
- the notable builtins called (`sorted`, `max`, `min`, `sum`, `len`, `range`);
- the container literals built (list, dict, set).

**`ComplexityAnalyzer`** (`core/complexity_analyzer.py`) does four things:
- derives a polynomial estimate from the deepest loop;
- arbitrates between that estimate and an advisory opinion, using the strict thresholds `> 0.8` and `> 0.5`;
- derives key factors and up to three recommendations;
- wraps all of this in `analyze`, which rejects blank input and turns a parse failure into an error record.

Structure of the model:

- `Tree.Node` is the syntax tree. It has the node kinds the walker tells apart plus a generic `Other`.
  - `Children` lists children in the order `ast.iter_child_nodes` yields them.
  - `Size` is the termination measure.
- `Walk` holds the walk as functions over an immutable `ParserState`: `Visit`, `VisitAll`, `Handle`, and one step per handler.
- `AstParser.ASTParser` is a class whose fields are the parser's fields.
  - `AnalyzeNode` and the three body-walking handlers (`HandleForLoop`, `HandleWhileLoop`, `HandleFunctionDef`) loop over the node's children or body the way the source does. `Parse`, `Reset`, `HandleFunctionCall` and `HandleDataStructure` are straight-line, as in the source.
  - Each method is proved to leave the fields as the matching `Walk` function says.
- `Facts.FactsOf` is an independent, declarative reading of what a tree contains: called names, container kinds, definitions, loop sites, self-recursive definitions, and the deepest chain of nested loops.
  - `WalkProperties` proves the walk reports exactly these facts.
  - `AstParser` restates them for what `parse` returns.
- `ComplexityAnalyzer` holds the analyzer: the estimate, `Recommendations` (a function) and `GenerateRecommendations` (an imperative method proved equal to it), `CombineAnalyses`, the `AnalysisReport` specification of `analyze`, and a class whose `Analyze` method drives the parser object.
  - `AnalyzerProperties` relates the verdict to the tree's own facts.
- `ParserExamples` and `AnalyzerExamples` compute the parser and analyzer results for the repository's test snippets and sample programs:
  - a single loop, two nested loops, a while loop;
  - `k` nested loops, at top level and inside a `def`;
  - the integration scenario;
  - the recursive fibonacci.
- `Text` models `str(int)` (with a round trip proving it injective) and the whitespace test behind `str.strip()`.

The walker is modelled as the code is written. Three consequences are worth knowing:

1. Loop and function bodies are walked twice. Each loop or function handler walks the node's body. Then `_analyze_node` walks all the children again at the outer depth, body included (core/ast_parser.py:82-83, :100-101, :115-116, :131-132).
   - So two nested `for` loops produce three loop records, at levels 1, 2 and 1 (`ParserExamples.NestedForLoops`). In general a nest of `k` loops produces `2^k - 1` records (`ParserExamples.LoopNestRecords`).
   - The tests at tests/test_ast_parser.py:6 and :8 expect 2 and 3 loop records. The code produces 3 and 14 (`ParserExamples.NestedSnippetLoopCounts`). The `max_nesting_level` expectations of those tests do hold (`NestedLoopsMaxNesting`, `NestedLoopsInDefMaxNesting`).
   - Loops side by side are each recorded once at top level: `k` of them give `k` records at level 1 (`ParserExamples.SiblingLoops`). Inside a function body every loop is recorded twice, because the body is walked by `_handle_function_def` (core/ast_parser.py:131-132) and again among the def's children. The same `k` loops in a `def` give `2k` records (`ParserExamples.SiblingLoopsInDef`). So a function with a single loop, like the samples' linear search, reports `key_factors.loops` = 2.
   - The loop records are proved to name exactly the tree's loops as a set of sites (`ParsedLoops`). Their number is only bounded below by the number of loops (`ParsedKeyFactors`).
2. `recursive_calls` is a plain list that is only ever appended to (core/ast_parser.py:35, :143), so a name can repeat. The model keeps it a sequence and proves facts about its set of elements.
3. `builtin_calls` and `data_structures` go through `list(set(...))` (core/ast_parser.py:52-53), so their order is not defined. They are modelled as sets.

## Model

| member | source | states |
|---|---|---|
| AstParser.ASTParser.constructor | core/ast_parser.py:30-38 | a new parser starts with zero counters, empty lists and no current function |
| AstParser.ASTParser.Parse | core/ast_parser.py:40-56 | `parse` clears the state first: its result depends on `src` alone, and the final state is the walk of that tree from the initial state. A syntax error is a `ValueError("Invalid Python syntax: …")`, distinct from any analysis. Other front-end exceptions pass through |
| AstParser.ASTParser.Reset | core/ast_parser.py:58-67 | `_reset` puts every field back to its initial value |
| AstParser.ASTParser.AnalyzeNode | core/ast_parser.py:69-83 | the node's own handler, then every child in `iter_child_nodes` order, leaves the fields as `Walk.Visit` of the old state |
| AstParser.ASTParser.HandleForLoop | core/ast_parser.py:85-103 | depth up by one, maximum updated, a `for` record with the iterator hint appended, body walked, depth back down |
| AstParser.ASTParser.HandleWhileLoop | core/ast_parser.py:105-118 | the same with a `while` record carrying no hint |
| AstParser.ASTParser.HandleFunctionDef | core/ast_parser.py:120-135 | the current function is saved and set to the def's name for the body. The function record is appended after the body. The previous current function is restored |
| AstParser.ASTParser.HandleFunctionCall | core/ast_parser.py:137-147 | a bare-name call is recorded as recursive only inside a function of that (non-empty) name, and as a builtin only when listed |
| AstParser.ASTParser.HandleDataStructure | core/ast_parser.py:149-156 | a list, dict or set literal appends its kind |
| AstParser.ParseEndsAtTopLevel | core/ast_parser.py:85-135 | after `parse`, `current_nesting` is 0 again and no function is current |
| AstParser.ParsedNesting | core/ast_parser.py:85-118 | `max_nesting_level` is the tree's deepest chain of nested loops. It equals the largest recorded level, or 0 with no loops. Every recorded level lies between 1 and it |
| AstParser.ParsedLoops | core/ast_parser.py:89-113 | the loop records name exactly the tree's loops (kind, line, iterator hint), and `while` records never carry a hint |
| AstParser.ParsedFunctions | core/ast_parser.py:120-135 | the function records are exactly the tree's definitions (name, line, positional parameter count) |
| AstParser.ParsedBuiltinCalls | core/ast_parser.py:137-147 | `builtin_calls` is exactly the listed builtins the tree calls by bare name, a subset of the six names |
| AstParser.ParsedDataStructures | core/ast_parser.py:149-156 | `data_structures` is exactly the literal kinds the tree builds, a subset of list, dict, set |
| AstParser.ParsedRecursion | core/ast_parser.py:120-143 | `recursive_calls` names exactly the non-empty-named definitions whose body calls their own name |
| Records.IteratorType | core/ast_parser.py:89-91 | the iterator hint is present exactly when the iterable is a call of a bare name |
| Records.MaxLevel | core/complexity_analyzer.py:84 | the maximum level is attained by some record and bounds all of them |
| Walk.Visit | core/ast_parser.py:69-83 | `_analyze_node` on a state: the node's handler, then every child in order |
| Walk.VisitAll | core/ast_parser.py:82-83 | the walk of a list of siblings, one after the other |
| Walk.Handle | core/ast_parser.py:71-80 | the type dispatch: `For`, `While`, `FunctionDef`, `Call`, and the three literal kinds go to their handlers; every other node is left alone |
| Walk.EnterLoop | core/ast_parser.py:86-98 | one level deeper, the running maximum updated, and the loop recorded at the new level |
| Walk.ForLoopStep | core/ast_parser.py:85-103 | `_handle_for_loop`: enter with the iterator hint, walk the body, one level back up |
| Walk.WhileLoopStep | core/ast_parser.py:105-118 | `_handle_while_loop`: enter without a hint, walk the body, one level back up |
| Walk.FunctionDefStep | core/ast_parser.py:120-135 | `_handle_function_def`: walk the body with the def's name current, append the record, restore the previous current function |
| Walk.CallStep | core/ast_parser.py:137-147 | `_handle_function_call`: for a bare-name callee, record a recursive call inside a function of that truthy name, and a builtin call for the six listed names |
| Walk.DataStructureStep | core/ast_parser.py:149-156 | `_handle_data_structure`: append the literal's kind |
| Walk.Summary | core/ast_parser.py:47-54 | the returned `ASTAnalysis`: the fields as they stand, with builtins and kinds deduplicated into sets |
| AstParser.AnalysisOf | core/ast_parser.py:41-54 | the analysis of a tree: the walk from the cleared state, then the summary |
| AstParser.ParseOutcome | core/ast_parser.py:40-56 | what `parse` returns for a tree, or the `ValueError` it raises for a syntax error, or the other exception it lets through |
| WalkProperties.VisitAllAppend | core/ast_parser.py:82-83 | walking a concatenation of siblings is walking the first part, then the second |
| WalkProperties.HandleRestores | core/ast_parser.py:85-135 | each handler gives back the nesting counter and the current function it found |
| WalkProperties.VisitRestores | core/ast_parser.py:69-135 | so does walking any subtree |
| WalkProperties.VisitAllRestores | core/ast_parser.py:82-83 | and walking any list of siblings |
| WalkProperties.EnterLoopConsistent | core/ast_parser.py:86-98 | entering a loop keeps every level at least 1, the maximum equal to the largest level, and `while` records hint-free |
| WalkProperties.HandleConsistent | core/ast_parser.py:69-156 | every handler keeps that invariant |
| WalkProperties.VisitConsistent | core/ast_parser.py:69-83 | walking a subtree keeps it |
| WalkProperties.VisitAllConsistent | core/ast_parser.py:82-83 | walking siblings keeps it |
| WalkProperties.HandleDepth | core/ast_parser.py:85-118 | a handler raises the maximum to the current depth plus the depth its own loop adds |
| WalkProperties.VisitDepth | core/ast_parser.py:69-118 | walking a subtree from depth `c` makes the maximum `max(old, c + depth of the subtree)`: no repeat visit is ever deeper |
| WalkProperties.VisitAllDepth | core/ast_parser.py:82-83 | the same for a list of siblings |
| WalkProperties.LoopCollected | core/ast_parser.py:85-118 | a loop handler adds its own site plus what its body holds |
| WalkProperties.HandleCollected | core/ast_parser.py:69-156 | every handler adds exactly its node's own facts plus what the walked body holds |
| WalkProperties.CollectedJoin | core/ast_parser.py:82-83 | what two successive walks add is the union of what each adds |
| WalkProperties.HandledFactsAbsorbed | core/ast_parser.py:82-83 | re-walking a body among the children adds nothing new to the sets collected |
| WalkProperties.VisitCollected | core/ast_parser.py:69-156 | walking a subtree adds exactly its loop sites, definitions, listed builtins and literal kinds |
| WalkProperties.VisitAllCollected | core/ast_parser.py:82-83 | the same for a list of siblings |
| WalkProperties.HandleRecursion | core/ast_parser.py:137-143 | a handler adds only the def's own name when its body calls it, or the current function's name when the call matches it |
| WalkProperties.VisitRecursion | core/ast_parser.py:120-143 | walking a subtree adds its self-recursive definitions, plus the current function when the subtree calls it |
| WalkProperties.VisitAllRecursion | core/ast_parser.py:82-83 | the same for a list of siblings |
| Facts.ContainerKinds | core/ast_parser.py:149-156 | only the three literal kinds are ever found |
| ParserExamples.SingleForLoop | tests/test_ast_parser.py:5 | `for i in range(10): pass` gives one `for` record at level 1 with hint `range`, maximum 1, builtins `{range}` |
| ParserExamples.NestedForLoops | tests/test_ast_parser.py:6 | two nested `for` loops give records at levels 1, 2, 1 and maximum 2 |
| ParserExamples.SingleWhileLoop | tests/test_ast_parser.py:7 | `while True: pass` gives one hint-free `while` record at level 1 and maximum 1 |
| ParserExamples.LoopNestDepth | core/ast_parser.py:85-103 | `k` loops, each the body of the previous one, nest `k` deep |
| ParserExamples.NestedLoopsMaxNesting | tests/test_ast_parser.py:4-14 | `k` directly nested loops give `max_nesting_level` `k` |
| ParserExamples.NestedLoopsInDefMaxNesting | tests/test_ast_parser.py:8 | so do `k` nested loops inside a `def` |
| ParserExamples.LoopNestRecords | core/ast_parser.py:82-101 | walking a nest of `k` loops adds `2^k - 1` loop records |
| ParserExamples.NestedSnippetLoopCounts | tests/test_ast_parser.py:6-8 | the code gives 3 records for two nested loops and 14 for three nested loops inside a `def`, not the 2 and 3 the tests expect |
| ParserExamples.SiblingLoops | core/ast_parser.py:69-103 | `k` loops side by side at top level give exactly `k` records, all at level 1, and `max_nesting_level` 1 |
| ParserExamples.SiblingLoopsInDef | core/ast_parser.py:120-135 | the same `k` loops as a function body give `2k` records, all at level 1, and `max_nesting_level` 1: the body is walked twice |
| Text.NatDigits | core/complexity_analyzer.py:93 | `str` of a natural number is a non-empty string of digits |
| Text.DecimalRoundTrip | core/complexity_analyzer.py:93 | reading back `str(i)` gives `i` |
| Text.DecimalInjective | core/complexity_analyzer.py:93 | distinct integers print differently |
| Text.Decimal | core/complexity_analyzer.py:93 | `str(i)`: a non-empty numeral, with a `-` for negatives |
| Text.IsPythonWhitespace | core/complexity_analyzer.py:18 | the characters `str.isspace` accepts, the ones `strip()` removes |
| Text.Strip | core/complexity_analyzer.py:18 | `code.strip()`: `lstrip` then `rstrip` |
| Text.Blank | core/complexity_analyzer.py:18 | the guard `not code or not code.strip()`: every character is whitespace |
| Text.StripLeading | core/complexity_analyzer.py:18 | the part left by `lstrip` is a suffix, only whitespace was dropped, and it does not start with whitespace |
| Text.StripTrailing | core/complexity_analyzer.py:18 | the part left by `rstrip` is a prefix, only whitespace was dropped, and it does not end with whitespace |
| Text.BlankIffStripEmpty | core/complexity_analyzer.py:18 | `code.strip()` is empty exactly when every character is whitespace |
| ComplexityAnalyzer.PolynomialClass | core/complexity_analyzer.py:86-93 | every class of a depth is a non-empty `O(n…` string |
| ComplexityAnalyzer.PolynomialClassInjective | core/complexity_analyzer.py:86-93 | distinct depths get distinct classes (`O(n)`, `O(n²)`, `O(n³)`, `O(n^d)`) |
| ComplexityAnalyzer.EstimateLoopComplexity | core/complexity_analyzer.py:79-93 | there is no estimate exactly when there are no loops. Otherwise the estimate is the non-empty class of the deepest recorded level |
| ComplexityAnalyzer.FailureOpinion | core/llm_client.py:25-30 | the client's record for a failed request: time and space `Unknown`, confidence 0.0, and the error text |
| ComplexityAnalyzer.Confidence | core/complexity_analyzer.py:51 | the opinion's confidence, 0.5 when it gives none |
| ComplexityAnalyzer.LabelsDistinct | core/complexity_analyzer.py:53-61 | the three analysis methods have distinct labels, and so do the two loop kinds (core/ast_parser.py:94, :110) |
| ComplexityAnalyzer.NestingAdvice | core/complexity_analyzer.py:100-104 | the nesting advice, carrying the depth |
| ComplexityAnalyzer.SortingAdvice | core/complexity_analyzer.py:107-110 | the sorting advice |
| ComplexityAnalyzer.RecursionAdvice | core/complexity_analyzer.py:113-117 | the recursion advice |
| ComplexityAnalyzer.AdvicesDiffer | core/complexity_analyzer.py:100-117 | the three advices are distinct texts |
| ComplexityAnalyzer.Recommendations | core/complexity_analyzer.py:95-119 | at most three advices. The nesting advice appears iff the nesting exceeds 2, the sorting advice iff `sorted` was called, the recursion advice iff there are recursive calls. Nothing else appears, in the fixed order and without repeats |
| ComplexityAnalyzer.GenerateRecommendations | core/complexity_analyzer.py:95-119 | appending under the three conditions yields exactly those recommendations |
| ComplexityAnalyzer.CombineAnalyses | core/complexity_analyzer.py:43-77 | the method is high-confidence iff confidence > 0.8, and validated iff 0.5 < confidence ≤ 0.8 with loops (so exactly 0.8 and 0.5 fall through). Otherwise it is the structural estimate, or `O(1)` without loops. The opinion's time is used iff the method is not structural. Confidence is passed through with default 0.5. Space, explanation and bottlenecks take their defaults. Key factors are the loop count, nesting, recursion flag and builtins. Recommendations do not depend on the opinion |
| ComplexityAnalyzer.AnalysisReport | core/complexity_analyzer.py:15-41 | blank input is rejected with `ValueError("Code cannot be empty")`, and nothing else is. A parse failure becomes an error record `AST parsing failed: …` without raising. Otherwise the record carries the analysis, the opinion, the combined verdict and the code |
| ComplexityAnalyzer.ComplexityAnalyzer.constructor | core/complexity_analyzer.py:11-13 | the analyzer owns a fresh parser in its initial state |
| ComplexityAnalyzer.ComplexityAnalyzer.Analyze | core/complexity_analyzer.py:15-41 | `analyze` returns what `AnalysisReport` says. Blank input is rejected before the parser is touched. Otherwise the parser is left in the state of walking the parsed tree from the cleared state, or cleared when parsing failed |
| AnalyzerProperties.NoSitesNoLoops | core/complexity_analyzer.py:81 | a list of loop records is empty exactly when it names no loop site |
| AnalyzerProperties.SitesBound | core/complexity_analyzer.py:69 | there are at least as many loop records as distinct loop sites |
| AnalyzerProperties.ParsedEstimate | core/complexity_analyzer.py:79-93 | a parsed tree has no estimate iff it has no loop. Otherwise its estimate is the class of its deepest loop nest |
| AnalyzerProperties.ParsedKeyFactors | core/complexity_analyzer.py:68-73 | for a parsed tree the loop factor is at least its number of loops and is 0 iff it has none. The nesting factor is its loop depth. Recursion holds iff some definition calls itself. The builtins are the listed ones it calls |
| AnalyzerProperties.ParsedRecommendations | core/complexity_analyzer.py:95-119 | for a parsed tree the nesting advice appears iff its loops nest more than 2 deep, the sorting advice iff it calls `sorted`, the recursion advice iff some definition calls itself |
| AnalyzerProperties.FailedOpinionFallsBack | core/llm_client.py:25-30 | the opinion from a failed advisory request (confidence 0.0) leaves the structural estimate or `O(1)` in charge, with space `Unknown` and the default explanation and bottlenecks |
| AnalyzerProperties.ConfidenceMonotone | core/complexity_analyzer.py:53-61 | raising the confidence of an opinion that already decided the time keeps that decision and that time |
| AnalyzerExamples.IntegrationScenario | tests/test_integration.py:11-14 | `for i in range(10): pass` with the test's opinion gives time `O(n)` and confidence 0.95, high-confidence method, key factors (1, 1, no recursion, `{range}`), no recommendations |
| AnalyzerExamples.NestedLoopsVerdict | core/complexity_analyzer.py:79-104 | `k` nested loops are estimated at the `k`-th power, and that estimate stands at confidence ≤ 0.5. The nesting advice appears iff `k > 2` |
| AnalyzerExamples.PolynomialClassExamples | core/complexity_analyzer.py:93 | depths 4 and 12 give `O(n^4)` and `O(n^12)` |
| AnalyzerExamples.FibonacciFacts | examples/sample_codes.py:48-51 | the sample fibonacci definition calls itself |
| AnalyzerExamples.FibonacciIsRecursive | examples/sample_codes.py:46-54 | the sample fibonacci is recorded as recursive, and draws the recursion factor and advice |

## Left out

- `ast.parse` and Python's surface syntax are not modelled. The model takes the parser front-end's outcome as input: a tree, a syntax error with its text, or another exception.
- Children of the tree that the walker never reacts to are not modelled. Examples are expression contexts (`Load`, `Store`), operators and constants. They read as `Other` leaves or are left out, which changes nothing the walker records.
- `async for`, `async def` and every other node kind are `Other` nodes. The handlers react only to `For`, `While`, `FunctionDef`, `Call`, `List`, `Dict` and `Set`, exactly as the code does.
- `Parse`: the model does not reach Python's recursion limit on very deep trees.
- core/llm_client.py is not part of this model: its network request, prompt, and regular-expression and JSON parsing of the response. Its result enters as the `Opinion` parameter of `CombineAnalyses`, `AnalysisReport` and `Analyze`. Only its failure record (`FailureOpinion`) is modelled.
- `CombineAnalyses`: the opinion's fields are modelled as present or missing, with a real confidence. Present but `null` or non-numeric JSON values are not modelled, nor the `TypeError` they would raise on comparison.
- The `asdict` conversion to dictionaries (core/complexity_analyzer.py:31) is not modelled: the report carries the records themselves.
- The never-populated `has_recursion` and `calls_other_functions` fields of `FunctionInfo` are not modelled.
- main.py (command line, tables, file reading), config.py (environment) and core/__init__.py (re-exports) are not part of this model.
