# Verified model of Rib

Rib is a small typed expression language. A compiler turns typed expressions into code for a stack machine with labels,
an interpreter runs that code, a type engine merges and unifies inferred types, and a REPL recompiles and reruns its whole
script on every line without repeating calls to the host. This project models these parts in Dafny and proves what they
are for.

`dafny verify dfyconfig.toml` checks everything.

## What is modelled and what is proved

**Code generation** (`Syntax`, `Desugar`, `ByteCode`, `Values`, `Machine`, `Evaluation`, `Running`, `Simulation`,
`Lockstep`, `Correctness`, `TameScripts`). The generator is a worklist that pushes
instructions backwards into a buffer, rewrites `&&`, `||`, `match` and range selections on the way, and hands out labels
from one counter. It terminates on every expression and produces the code of a recursive generator
(`ByteCode.FromExpr`). The code, run by the machine from any stack and any variables, does what a big-step evaluator
says: the same value on top of the old stack, the same variables, the same host, or an error after the same host calls
(`Simulation.Simulates`, `Correctness.CompiledMeaning`); compiler and interpreter loop together compute the value of the
expression (`Correctness.Evaluate`). The expression has to keep a stack discipline (`Evaluation.Discipline`, a static
check): an operand that is evaluated on top of another one must leave nothing but its value. That something of this kind
is needed is shown by two families of expressions that the machine misreads (`Misreadings`); a class of scripts that
satisfies it can be read off their form (`TameScripts`). Disciplined programs end, whatever the host answers and whether
or not it looks at positions (`Correctness.DisciplinedEnds`): from one run a host is read off that gives the same
answers without looking at positions (`Correctness.SameEnd`).

**What programs compute** (`Operations`, `Meanings`, `CompileErrors`). The operations that machine and evaluator share are
described in plain arithmetic and by index, and that is lifted to whole expressions: integers with the range of their 64-bit
carrier and of the target kind, the quotient that rounds towards zero, fractions (`Operations.MathCalculates`, `Meanings.MathMeans`);
the order of numbers and of texts (`Meanings.NumbersMean`, `Meanings.TextsMean`); the order of operands; which call the host
gets, with which arguments (`Meanings.WorkerCalled`, `Meanings.MethodCalled`); and what comprehensions and reductions make of
the items of a list, one by one (`Meanings.ComprehensionMeans`, `Meanings.ReductionFolds`). Which expressions do not compile, and
with which error, is said exactly (`CompileErrors.FailsExactly`).

**Labels and loop-free programs** (`ByteCode`, `LoopFree`). Labels are emitted once, every jump finds its label, appending
statements moves no earlier instruction, and programs without loops only jump forward, so that no instruction runs twice.

**Match** (`MatchDesugaring`). What the nested conditional of a `match` does is proved for all patterns but
those of lists: it goes on with the first arm that is not skipped, binds exactly the variables of its pattern, and is an
error when testing an arm is one (`MatchDesugaring.MatchMeans`). What a pattern means is defined on values,
independently of the rewriting. The two agree for patterns without plain literals below constructors. The condition of
such a literal ignores all tags: `match r { err("x") => .., ok(v) => .. }` is an error when r is ok with a record, and
takes the first arm when r is `ok("x")`. It is proved for exactly which values these patterns are decided rightly
(`MatchDesugaring.RightExactly`, `MatchDesugaring.ChainRight`), that a pattern that fits is always taken
(`MatchDesugaring.FittingIsTaken`), and that a match chooses the arm that is meant exactly if every arm up to that one is
decided rightly (`MatchDesugaring.ChosenIsMeant`).

**Range selection** (`RangeSelections`). `list[a..b]` and `list[a..=b]` pick exactly the items of the range, and fail
exactly when a range that is not empty leaves the list; `list[a..]` picks the items up to the last one and leaves that
out.

**Replay** (`HostValues`, `InstanceNames`, `Replay`, `Retyping`, `Repl`, `Misreadings`).
Over every session of lines that succeed, do not compile or fail while running, and of clearings, rerunning the
committed script makes no call to the host and gives every call the answer it had (`Repl.SessionsSettle`), whatever
inference does to earlier lines. The log of the host has every committed call once and in order, and the rest of it has
been made by lines that failed or before a clearing (`Repl.ExactlyOnce`). The latter asks of each line that the part
of the program before it stays as it is. Inference may change the types of earlier statements, as when a literal takes
the type of a parameter it is used for later (`docs/language-guide.md:261-277`): then the program still has the same
calls, names and bindings at the same positions (`Retyping`), and its old part is still answered from the cache,
position by position, as long as it goes where it went before (`Repl.FlowFollows`). Retyping can change where it goes: after
`let x = 1` and `if x / 2 > 0 then f() else false`, the line `let y: f64 = x` makes x a fraction, and the committed
conditional calls `f` for the first time (`Misreadings.RetypingCalls`). A condition that can be checked before the run
excludes this: if every call of the committed part has an entry in the cache, no program calls the host there, wherever it
goes (`Repl.GuardedRun`, `Repl.NothingCalledAgain`); and the log grows exactly when a call is reached that
the cache does not answer and the host does (`Repl.LogStaysExactly`). A call that the host gets has the component,
the instance, the function and the arguments of the call, one by one (`Replay.CallPassed`). Values that cross the boundary
to the host come back as they were.

**Type engine** (`Inferred`, `Unification`, `UnifiedTypes`; `MergeTasks`, `Merging`). Unification terminates, its
results are resolved, it is symmetric, and it is idempotent exactly when no alternatives are left on one side of a
result. Without repeated names a unified type is no larger than the types it comes from; two records show that it can be
with them (`UnifiedTypes.RepeatedNameGrows`). What unification makes of two types is said
kind by kind, without its own terms: of two numbers the one that is not a default wins (`UnifiedTypes.NumbersUnify`), types with
parts are unified part by part, an option takes in another type, and other types of different kinds fail. Merging keeps
exactly the leaves of its inputs at their paths and the skeletons of all types with parts (the names of fields, the cases with
and without payload, the sizes and sides), puts inputs of one skeleton together and keeps inputs of different skeletons apart
(`Merging.SkeletonsKept`), carries exactly their origins (`MergeTasks.MergeLends`), and gives a normal form; the merge stack keeps
every task at its own index with pointers that lead to later slots only.

**Arena** (`ExprArenas`). Lowering an expression into two append-only tables that
refer to each other and rebuilding it gives the expression back, and leaves everything that was in the tables as it was.

## Choices

- Numbers are exact (`real`), with the WIT kind that carries them; conversion to a kind checks its range as the code does.
- The machine is polymorphic in the host: a `World` is any function that answers calls and makes up names, with any state.
- An instruction sees the position after its fetch, so positions start from 1.
- The instruction called IsEmpty pushes true for an iterator when there is something left
  (`rib-lang/src/interpreter/rib_interpreter.rs:380-424`), and the loop heads rely on that; the model follows the code.
- `list[a..]` becomes a range to the last index without that index (`rib-lang/src/compiler/desugar.rs:19-66`), so the last
  item is not selected, and an empty list is an error when the indices are unsigned; the model follows the code.
- Parsing and type inference are a parameter of the REPL: any function from text to typed statements. No property of it is
  assumed for all texts. What is asked of it is asked of each line of a session (`Repl.PrefixStays`): the statements before the
  line are as they were, or only their types are not and the run goes where it went before, or only their types are not and
  every call among them has an entry in the cache.
- Paths of merged types are those the code builds; a record field named `list` has the path of a list element, and the
  theorems hold with such collisions.
- `hide` in front of a contract or a body leaves definitions out of the proof that it is well formed; `hide *` leaves out
  all of them. It says nothing about the contract and keeps verification quick.
- `Stack` of `Merging` carries, beside the tasks, the path of every slot and the slots made for inputs, only to state
  what holds. In the same way `Session` carries the committed calls and the host its log and trace.

## Model

| member | source | states |
|---|---|---|
| ByteCode.FromExpr | rib-lang/src/compiler/byte_code.rs:75-105 | the worklist loop ends on every expression and yields exactly the code (or the error) of the recursive generator that emits right to left, with labels counted from the top |
| CompileErrors.FailsExactly | rib-lang/src/compiler/byte_code.rs:75-105 | which expressions do not compile, and with which error: an open receiver, a missing component or type, a literal out of range, an index that is no range, a match without arms that can be tested, in the expression or in what it is compiled from; the error of the expression itself comes first, then those of its parts, the last part first |
| ByteCode.Generator.ProcessExpr | rib-lang/src/compiler/byte_code.rs:123-720 | one round keeps the final program the same: remaining stack followed by reversed buffer; and the weight of the stack drops, also when the expression is rewritten |
| ByteCode.EmitChunks | rib-lang/src/compiler/byte_code.rs:78-104 | pushing operands with their trailing instructions onto the stack emits their code in front of what is there, and weighs what they weigh |
| ByteCode.PlanShrinks | rib-lang/src/compiler/byte_code.rs:84-99 | whatever an expression is split into or rewritten to weighs less than the expression |
| ByteCode.MatchShrinks | rib-lang/src/compiler/byte_code.rs:304-315 | the nested conditional of a match, with all its copies of the scrutinee, weighs less than the match |
| ByteCode.RangeSelectionShrinks | rib-lang/src/compiler/desugar.rs:5-71 | the comprehension of a range selection, with both copies of the list, weighs less than the selection |
| ByteCode.AsCondWeight | rib-lang/src/compiler/byte_code.rs:244-263 | the conditionals the logical operators become weigh less than the operators |
| Desugar.DesugarPatternMatch | rib-lang/src/compiler/desugar.rs:73-88 | the loop over the arms builds the nested conditional of the branches in source order, and nothing when no arm has a branch |
| Desugar.BuildExprFrom | rib-lang/src/compiler/desugar.rs:96-116 | the conditional grown from the inside has the branches in source order and ends in the throw |
| Desugar.AndCombine | rib-lang/src/expr.rs:535-550 | the conjunction of all conditions, from the first to the last |
| Machine.Cursor.GetInstruction | rib-lang/src/interpreter/instruction_cursor.rs:26-34 | fetches the instruction at the position and goes one further; at the end it stays |
| Machine.Cursor.MoveTo | rib-lang/src/interpreter/instruction_cursor.rs:36-47 | goes behind the first label with the index, or fails and stays where it is when there is none |
| Machine.Interpret | rib-lang/src/interpreter/rib_interpreter.rs:62-331 | the interpreter loop ends where the step relation ends, with its result and its host |
| Machine.InvokeAsks | rib-lang/src/interpreter/rib_interpreter.rs:1175-1347 | a call instruction makes one call, for the receiver in the variables and the arguments on the stack, at the position after its fetch, or none at all if something is missing |
| Machine.HaltsOnce | rib-lang/src/interpreter/rib_interpreter.rs:62-331 | a run has at most one end |
| ByteCode.GenLabels | rib-lang/src/compiler/byte_code.rs:785-899 | labels of an expression are handed out after the given count, each is emitted once, and every jump goes to a label of the same code |
| Correctness.JumpsLand | rib-lang/src/interpreter/instruction_cursor.rs:36-47 | in a compiled program every jump finds a label, and it is the only one with its index |
| ByteCode.GenShift | rib-lang/src/compiler/byte_code.rs:799-803 | counting labels from somewhere else moves all labels by the difference and changes nothing else |
| ByteCode.AppendStatements | rib-lang/src/compiler/byte_code.rs:292-297 | appending statements to a block keeps all earlier instructions in place, with their labels moved by the number of labels the new statements use |
| LoopFree.GenForward | rib-lang/src/compiler/byte_code.rs:872-899 | code of an expression without comprehensions and reductions, also in what it is rewritten to, only jumps forward |
| LoopFree.StepForward | rib-lang/src/interpreter/instruction_cursor.rs:36-47 | in such a program the position strictly increases with every step |
| LoopFree.EndsInTime | rib-lang/src/interpreter/rib_interpreter.rs:62-331 | a run of such a program ends after at most as many steps as it has instructions |
| LoopFree.NoCallInNoLoop | rib-repl/src/invoke.rs:57-114 | a program that only jumps forward has no call in a loop, as the replay asks for |
| Simulation.Simulates | rib-lang/src/compiler/byte_code.rs:123-720 | code of an expression that keeps the discipline, anywhere in a program, with any stack and variables: the machine gets behind it with the big-step value on top of the old stack, the variables and the host of the evaluation, or stops with an error after the same host calls |
| Simulation.SimulatesAll | rib-lang/src/compiler/byte_code.rs:172-243 | operands evaluated from right to left end with the left one on top |
| Simulation.SimulatesCond | rib-lang/src/compiler/byte_code.rs:872-899 | a conditional runs its condition and exactly one of its branches |
| Simulation.SimulatesLogical | rib-lang/src/compiler/byte_code.rs:244-263 | conjunction and disjunction skip the right side when the left one decides |
| Simulation.SimulatesBlock | rib-lang/src/compiler/byte_code.rs:292-297 | a block runs its statements in order and leaves the value of the last one on top, with earlier values below |
| Simulation.SimulatesLet | rib-lang/src/compiler/byte_code.rs:298-303 | a binding takes its value off the stack into the variables |
| Simulation.SimulatesRewritten | rib-lang/src/compiler/byte_code.rs:304-346 | a match or a range selection does what the expression does it is rewritten to |
| Simulation.SimulatesComprehension | rib-lang/src/compiler/byte_code.rs:785-822 | a comprehension runs its body once for every item in order and collects the values into a list |
| Simulation.SimulatesReduce | rib-lang/src/compiler/byte_code.rs:824-870 | a reduction folds its body over the items from the initial value |
| Running.StrictTail | rib-lang/src/compiler/byte_code.rs:172-278 | the instructions behind the operands of an operator, a constructor or a call compute from the operands' values what the operator means |
| Running.StrictCode | rib-lang/src/compiler/byte_code.rs:172-278 | code of such an expression is the code of its operands followed by these instructions, wherever labels start |
| Running.CombinePlain | rib-lang/src/interpreter/rib_interpreter.rs:62-331 | what an operator computes is a value or unit, never an iterator or a sink |
| Running.LoopTest | rib-lang/src/compiler/byte_code.rs:805-807 | the loop head leaves the loop exactly when the iterator has nothing left, and else binds the next item |
| Running.CollectItem | rib-lang/src/interpreter/rib_interpreter.rs:623-635 | the end of a comprehension's body puts the value into the sink, drops whatever lies between and goes back to the head |
| Running.FoldItem | rib-lang/src/compiler/byte_code.rs:824-870 | the end of a reduction's body binds the accumulator and goes back to the head with the iterator still on the stack |
| Running.EntersCollect | rib-lang/src/compiler/byte_code.rs:785-803 | before a comprehension the iterated value becomes an iterator under an empty sink |
| Running.EntersFold | rib-lang/src/compiler/byte_code.rs:824-850 | before a reduction the initial value is bound and the iterated value becomes an iterator |
| Operations.IntegerMath | rib-lang/src/interpreter/literal.rs:236-272 | two signed or two unsigned integers a and b: plus, minus and times give a + b, a - b and a * b, and there is a value if and only if that fits 64 bits and the target kind; division gives a quotient q with the remainder a - q * b smaller than b and of the sign of a, and fails for zero |
| Operations.OneQuotient | rib-lang/src/interpreter/literal.rs:236-272 | there is only one such quotient |
| Operations.MixedMath | rib-lang/src/interpreter/literal.rs:255-262 | a signed and an unsigned integer: the same with the unsigned one read as a signed number of 64 bits |
| Operations.MathCalculates | rib-lang/src/interpreter/rib_interpreter.rs:118-163 | an operation on any two values and any target type: these laws for integers, the fraction for floats (at an integer kind only if it has 64 bits and the result is whole and fits), and an error for everything that is not a number |
| Operations.NumbersCompare | rib-lang/src/interpreter/literal.rs:274-310 | numbers of all kinds are compared by size |
| Operations.TextsCompare | rib-lang/src/interpreter/literal.rs:10-60 | texts, characters, enums and cases without payload are compared as texts: up to some place they are the same, and there one ends or has the smaller character |
| Operations.BeforeOrders | rib-lang/src/interpreter/literal.rs:53-60 | that is a strict total order |
| Operations.SortsCompare | rib-lang/src/interpreter/literal.rs:53-60 | of different sorts, numbers come before texts and texts before booleans |
| Operations.CasesCompare | rib-lang/src/interpreter/interpreter_stack_value.rs:312-353 | payloads of the same case are compared, and different cases are related in no way |
| Operations.WrapUnwrap | rib-lang/src/interpreter/rib_interpreter.rs:1349-1478 | what `some`, `ok` and `err` have wrapped is what is unwrapped, and the tag says which of them it was |
| Operations.VariantMade | rib-lang/src/interpreter/rib_interpreter.rs:1087-1121 | a case is the first one with its name, carries its payload, and its tag is its name |
| Operations.FieldSet | rib-lang/src/interpreter/rib_interpreter.rs:774-805 | a field that is set is what is selected, and the other fields stay as they were |
| Operations.ItemSelected | rib-lang/src/interpreter/rib_interpreter.rs:953-1024 | lists are indexed by whole numbers, tuples by unsigned ones, and an index outside is an error |
| Operations.TextsJoin | rib-lang/src/interpreter/rib_interpreter.rs:1480-1509 | texts are joined one behind the other |
| Operations.ListIterates | rib-lang/src/interpreter/rib_interpreter.rs:474-567 | a list gives an iterator of its length with item i of the list, at the element type, as item i |
| Operations.RangeIterates | rib-lang/src/interpreter/rib_interpreter.rs:474-567 | a range gives the numbers from its start up to its end, with the end only if it is inclusive |
| Meanings.StrictMeans | rib-lang/src/compiler/byte_code.rs:172-243 | operands are evaluated from the last one to the first one, each with the variables and the host the one before has left |
| Meanings.MathMeans | rib-lang/src/interpreter/rib_interpreter.rs:892-911 | an arithmetic expression: the right operand is evaluated, then the left one, and its value is what plain arithmetic makes of the two, at the kind of the expression, or an error |
| Meanings.NumbersMean | rib-lang/src/interpreter/rib_interpreter.rs:913-926 | a comparison of numbers is the truth of x < y, x == y and so on for the values of its operands |
| Meanings.TextsMean | rib-lang/src/interpreter/rib_interpreter.rs:913-926 | a comparison of texts is the order of the texts |
| Meanings.NumberMeans | rib-lang/src/compiler/byte_code.rs:154-171 | a number literal is the number at the inferred kind, for the integers without its fraction, and an error if and only if it does not fit |
| Meanings.TypeThereAndBack | rib-lang/src/compiler/type_with_unit.rs:41-228 | a type of a component that has become an inferred type is carried by the code as the same type |
| Meanings.OtherTypesBack | rib-lang/src/compiler/type_with_unit.rs:41-228 | ranges are carried as records, instances as names or handles; nothing ambiguous or unknown is carried, and a side of a result that cannot be carried is left out |
| Meanings.ListMeans | rib-lang/src/interpreter/rib_interpreter.rs:807-829 | item i of a list is the value of its expression i |
| Meanings.RecordMeans | rib-lang/src/interpreter/rib_interpreter.rs:756-805 | each field of a record has the value of its expression; of fields with the same name the last one counts |
| Meanings.InstanceMeans | rib-lang/src/interpreter/rib_interpreter.rs:711-754 | the name of an instance is the value of the variable kept for it, and only without one a name is made up |
| Meanings.WorkerCalled | rib-lang/src/interpreter/rib_interpreter.rs:1175-1347 | a call to a worker calls the instance named in its variable, with the component, the function, the type of the result and the values of the arguments in their order |
| Meanings.MethodCalled | rib-lang/src/interpreter/rib_interpreter.rs:1175-1347 | a method of a resource gets the resource as its first argument and goes to the instance that has the resource |
| Meanings.StaticCalled | rib-lang/src/interpreter/rib_interpreter.rs:1175-1347 | a static function of a resource gets only its own arguments |
| Meanings.ResourceMade | rib-lang/src/compiler/byte_code.rs:514-575 | a resource is made by a call to the worker in the variable of its owner, with the arguments in their order |
| Meanings.ResourceFromResource | rib-lang/src/compiler/byte_code.rs:514-575 | or, made from a resource, by a call that has that resource as its first argument |
| Meanings.LastPart | rib-lang/src/value.rs:44-63 | the name of the instance in the address of a resource is what follows the last slash |
| Meanings.ComprehensionMeans | rib-lang/src/compiler/byte_code.rs:785-822 | if the body, evaluated once for each item of the list or number of the range, in their order, has these values, the comprehension is the list of them |
| Meanings.ComprehensionStops | rib-lang/src/compiler/byte_code.rs:785-822 | the first round of the body without a value is the last one, and the comprehension is an error |
| Meanings.UnchangingComprehension | rib-lang/src/compiler/byte_code.rs:785-822 | with a body that changes nothing, value i is the value of the body with the variable bound to item i |
| Meanings.SameListAgain | rib-lang/src/compiler/byte_code.rs:785-822 | `for x in list { yield x; }` is the list |
| Meanings.ReductionMeans | rib-lang/src/compiler/byte_code.rs:824-870 | if the body, evaluated once for each item in their order with the value so far in its variable, has these values, the reduction is the last one |
| Meanings.ReductionFolds | rib-lang/src/compiler/byte_code.rs:824-870 | with a body that is a function of the value so far and the item, the reduction is the fold of the items of the list from the left |
| Correctness.CompiledMeaning | rib-lang/src/compiler/byte_code.rs:75-105 | a compiled program run from any stack and variables ends with the meaning of the expression |
| Correctness.NeatMeaning | rib-lang/src/compiler/byte_code.rs:75-105 | when the discipline finds nothing left behind, the value lies directly on the untouched old stack |
| Correctness.ValueCodeEnds | rib-lang/src/interpreter/rib_interpreter.rs:62-331 | code of an expression with a value is not empty and does not end in a binding, so the result is taken from the stack |
| Correctness.Evaluate | rib-lang/src/interpreter/rib_interpreter.rs:62-331 | compiling with the worklist and running with the interpreter loop ends for every disciplined expression and every host, and gives the value the expression has with the answers of the host; if the host does not look at positions, that is the value in its world, and the host is where the calls of the expression lead to |
| Correctness.DisciplinedEnds | rib-lang/src/interpreter/rib_interpreter.rs:62-331 | a disciplined program comes to an end from any stack and variables, also with a host that looks at positions |
| Correctness.SameEnd | rib-lang/src/interpreter/rib_interpreter.rs:1175-1347 | for every run there is a host that ignores positions, gives the same answers, and leads the same program through the same positions, stacks and variables |
| TameScripts.TameDisciplined | rib-lang/src/compiler/byte_code.rs:123-720 | expressions of the plain class satisfy the discipline, also through what matches and range selections are rewritten to; the neat ones leave nothing but their value |
| TameScripts.TameScript | rib-lang/src/compiler/byte_code.rs:292-297 | a script of bindings and expressions of the plain class satisfies the discipline |
| Misreadings.BlockOperandMisread | rib-lang/src/compiler/byte_code.rs:292-297 | in `{ x; y } == z` the machine compares y with x and leaves z below the answer, for all booleans and all states, although the expression has a meaning |
| Misreadings.ReductionOperandMisread | rib-lang/src/compiler/byte_code.rs:824-870 | a reduction as a left operand has a meaning, but the machine reports an error because it compares the value with the exhausted iterator |
| MatchDesugaring.PatternMeans | rib-lang/src/compiler/desugar.rs:137-208 | whatever tags are tested before and whether or not the scrutinee can be unwrapped: the condition of a pattern is true, false or an error as the verdict on the pattern says, and the body binds exactly the variables of the pattern |
| MatchDesugaring.PayloadMeans | rib-lang/src/compiler/desugar.rs:333-430 | under some, ok, err and payload cases the pattern of the payload is decided under the tag of the case, found or not, on the value unwrapped in whatever case it is |
| MatchDesugaring.EnumMeans | rib-lang/src/compiler/desugar.rs:210-256 | an enum pattern is taken for exactly the values in that case, under the tags around it |
| MatchDesugaring.TupleMeans | rib-lang/src/compiler/desugar.rs:432-523 | a tuple pattern asks for its items one after the other until one is not taken, and binds the variables of all |
| MatchDesugaring.RecordMeans | rib-lang/src/compiler/desugar.rs:269-331 | a record pattern asks for its fields, found by name, one after the other until one is not taken |
| MatchDesugaring.AsMeans | rib-lang/src/compiler/desugar.rs:591-613 | an `as` pattern also binds the whole value |
| MatchDesugaring.MatchMeans | rib-lang/src/compiler/desugar.rs:73-116 | a match goes on with the first arm in source order that is not skipped, with exactly the variables of its pattern; it is an error when testing that arm is one, or when all arms are skipped |
| MatchDesugaring.GuardedMatchMeans | rib-lang/src/compiler/desugar.rs:73-116 | without plain literals below constructors it goes on with the first arm whose pattern fits, with exactly the variables that pattern binds, and is an error exactly when no arm fits or the resolution of that arm is one |
| MatchDesugaring.ChosenIsMeant | rib-lang/src/compiler/desugar.rs:73-116 | the arm that is chosen is the first one that fits, if and only if the code decides rightly on every arm up to that one |
| MatchDesugaring.GuardedRight | rib-lang/src/compiler/desugar.rs:137-208 | a pattern without plain literals below constructors is decided rightly on every value of its type |
| MatchDesugaring.FittingIsTaken | rib-lang/src/compiler/desugar.rs:137-208 | any pattern that fits a value of its type is taken, with the variables it binds, also with plain literals below constructors |
| MatchDesugaring.ChainIgnoresTags | rib-lang/src/compiler/desugar.rs:258-265 | below any chain of constructors a plain literal is compared with what is inside the value, in whatever cases it is; testing is an error exactly when there is no literal inside |
| MatchDesugaring.ChainRight | rib-lang/src/compiler/desugar.rs:258-265 | such a pattern is decided rightly if and only if the value is in all cases of the chain, or has a literal inside that is a different one |
| MatchDesugaring.DecidesExactly | rib-lang/src/compiler/desugar.rs:137-208 | for every covered pattern, also of tuples and records with plain literals below constructors inside, which values are taken, which are skipped, and for which testing is an error, read off the pattern and the value |
| MatchDesugaring.RightExactly | rib-lang/src/compiler/desugar.rs:137-208 | such a pattern is decided rightly if and only if it fits the value, or one of its tests comes out false after tests that all come out true |
| MatchDesugaring.LiteralUnderConstructor | rib-lang/src/compiler/desugar.rs:210-267 | the generated condition, under any tags of enclosing constructors, says whether they are found and the pattern fits, if and only if they are found and the value is in all cases of the chain, or a different literal is inside; without a literal inside it is an error |
| MatchDesugaring.MatchBinds | rib-lang/src/compiler/desugar.rs:137-208 | a pattern that fits binds no variable that is not in it |
| MatchDesugaring.SteadyVariable | rib-lang/src/compiler/desugar.rs:73-88 | a variable that no pattern binds can be the scrutinee of a match |
| RangeSelections.ClosedRangePicks | rib-lang/src/compiler/desugar.rs:5-18 | a selection with a closed range is the list of exactly the items from the start to the end, with the end only if the range is inclusive; it is an error if and only if the range is not empty and leaves the list |
| RangeSelections.OpenRangePicks | rib-lang/src/compiler/desugar.rs:19-66 | a selection with a range without end is the list of the items from the start to the last but one; it is an error if and only if that range is not empty and leaves the list, or the numbers of the range cannot express the last index |
| RangeSelections.CollectsSlice | rib-lang/src/interpreter/rib_interpreter.rs:953-1024 | selecting one index after the other collects the slice, or fails at the first index that does not exist |
| HostValues.ThereAndBack | rib-repl/src/rib_val.rs:73-216 | every value well typed at a type with distinct case and flag names goes out to the host, and comes back as the same value |
| HostValues.BackAndThere | rib-repl/src/rib_val.rs:226-374 | whatever the host's value is accepted as is well typed, and goes out again as that value with the flags of every part in declared order and without duplicates |
| HostValues.GoesOutExactly | rib-repl/src/rib_val.rs:226-374 | the values the host can give at a type are exactly the well-typed ones |
| HostValues.SetBits | rib-repl/src/rib_val.rs:226-374 | the array filled in place has the bit of every given name, and the loop fails exactly when a name is unknown |
| InstanceNames.InstanceNameGen.GenerateWorkerName | rib-repl/src/instance_name_gen.rs:31-42 | counts up and gives the remembered name for the count, or a new one that is remembered |
| InstanceNames.InstanceNameGen.ResetInstanceCount | rib-repl/src/instance_name_gen.rs:27-29 | counting starts again and no name is forgotten |
| InstanceNames.NamesStay | rib-repl/src/instance_name_gen.rs:27-42 | over every run of resets and generations no name is replaced and each name handed out is the one kept for its place |
| InstanceNames.SamePlaceSameName | rib-repl/src/instance_name_gen.rs:27-42 | two names of a session are equal if and only if they were made at the same place after a reset |
| Repl.NamesOutliveClearing | rib-repl/src/repl_state.rs:55-67 | over every session of lines of any outcome and of clearings, the name at a place is never replaced or forgotten |
| Replay.PrefixMirrors | rib-repl/src/invoke.rs:45-114 | as long as the recorded program lasts, a session whose last position covers it follows the recording without asking the host, whatever is appended to the program and wherever its labels have gone |
| Replay.CallPassed | rib-repl/src/invoke.rs:57-114 | the host is left alone if and only if the cache has an answer or some argument has no host value; else it gets the call with its component, instance, function and type of result and with argument i of the call as argument i, and its reply read at the type of the result is the answer |
| Replay.SentOnce | rib-repl/src/invoke.rs:72-85 | there is only one such call |
| Replay.RunRecorded | rib-repl/src/invoke.rs:57-114 | a finished run without calls in loops is repeated, answer by answer, from the cache it leaves behind |
| Replay.RunRicher | rib-repl/src/invoke.rs:45-54 | more entries and more names do not change a run that the recording can answer |
| Replay.NewCalls | rib-repl/src/invoke.rs:57-114 | behind the last position every answered call is a new one: it is appended to the log and to the trace, and earlier entries of the cache stay |
| Replay.AnswersInOrder | rib-repl/src/invoke.rs:57-114 | without calls in loops a run answers its calls at strictly increasing positions |
| Retyping.SameConditions | rib-lang/src/compiler/desugar.rs:137-208 | patterns, scrutinees and resolutions that differ in types only have conditions and bodies that differ in types only |
| Retyping.SamePlans | rib-lang/src/compiler/byte_code.rs:123-720 | expressions that differ in types only are split into the same parts with the same instructions, or rewritten to expressions that differ in types only |
| Retyping.SameScripts | rib-lang/src/compiler/byte_code.rs:75-105 | statements that differ in types only compile to the same instructions at the same positions, with the same labels, up to the types and numbers they carry |
| Retyping.SameCodeExactly | rib-lang/src/compiler/byte_code.rs:75-105 | codes are the same up to that if and only if they have the same instructions one by one, with the same names, receivers, sizes, labels, texts and truth values, whatever types, numbers and flags they carry |
| Retyping.PartsForgotten | rib-lang/src/type_inference/identifier_inference.rs:28-105 | expressions of one kind and with the same names whose parts differ in types only differ in types only, whatever their own types, spans and annotations; an index has to be a range in both or in none |
| Repl.FlowFollows | rib-repl/src/invoke.rs:45-114 | while the retyped program is at the positions of the recorded one, its calls are answered from the cache with the old answers; the host is not asked and nothing is written |
| Repl.GuardedRun | rib-repl/src/invoke.rs:45-114 | if every call among the first b instructions has an entry in the cache, then every program, from any configuration and wherever it goes, leaves log and cache as they are until it gets behind b, and all its answers come from the cache |
| Repl.LogGrowsExactly | rib-repl/src/invoke.rs:57-114 | a step appends to the log if and only if it makes a call at a position that the cache does not answer and gets an answer from the host |
| Repl.LogStaysExactly | rib-repl/src/invoke.rs:57-114 | a run of any length leaves the log as it is if and only if none of its steps makes such a call |
| Repl.TextInOrder | rib-repl/src/raw.rs:6-9 | the text of a script has the lines in their order, with one separator between a line and the next one |
| Repl.PreparedLine | rib-repl/src/rib_repl.rs:175-180 | what is appended to the script is the line without one closing semicolon and without the white space around it |
| Misreadings.RetypingCalls | rib-lang/src/type_inference/identifier_inference.rs:28-105 | a session of three lines: the third one makes the variable of the first a fraction and changes nothing but types, and with that the second line, which has called nothing, calls the host at a committed position without an entry |
| Repl.NextProgram | rib-repl/src/rib_repl.rs:175-190 | if a line leaves the statements before it as they are, the program with it starts with the program before it, up to its labels, and the jumps behind it stay behind it |
| Repl.NextRetyped | rib-repl/src/rib_repl.rs:175-190 | if it only changes their types, the program with it has the same calls, names and bindings at the same positions as the program before it |
| Repl.ReplayMakesNoCalls | rib-repl/src/invoke.rs:45-114 | rerunning a committed script inside a longer program leaves host, log, cache and names as they are and repeats the committed calls with their answers |
| Repl.RetypedMakesNoCalls | rib-repl/src/invoke.rs:45-114 | the same for a script whose types have changed and which goes where it went: every position gets its old answer |
| Repl.CachedMakesNoCalls | rib-repl/src/invoke.rs:45-114 | rerunning a committed part all of whose calls are in the cache calls nothing and writes nothing, whatever has become of its types and wherever it goes |
| Repl.RunSplits | rib-repl/src/eval.rs:7-18 | a run, also one that fails, appends to the log exactly the calls answered behind the last position |
| Repl.ExecuteSettles | rib-repl/src/rib_repl.rs:159-219 | every line that ends, and has no call in a loop if it succeeds, keeps the session settled, whatever it does to the types before it; a line that fails changes neither the script nor the committed calls nor the last position |
| Repl.ExecuteCalls | rib-repl/src/rib_repl.rs:159-219 | a line that succeeds appends the same calls to the log and to the committed calls, all of them behind the last position, and in front of them the committed calls keep positions and answers, or, where retyping has led the script elsewhere, come from the cache; a line that fails while running appends its calls to the log only; any other line calls nothing |
| Repl.LateEntriesUnread | rib-repl/src/invoke.rs:45-54 | entries behind the last position, such as those of failed lines, have no influence on any call |
| Repl.LoopsAreNotRepeated | rib-repl/src/invoke.rs:45-54 | if one instruction calls twice, the replay answers both calls with the answer of the second |
| Repl.SessionsSettle | rib-repl/src/rib_repl.rs:159-219 | over every session of lines and clearings the committed script can be repeated from the cache alone |
| Repl.CommittedRunsAgain | rib-repl/src/rib_repl.rs:159-219 | in the terms of a fresh session: the committed script runs again to its end, with the committed calls and answers, and leaves host and log alone |
| Repl.LoggedOnce | rib-repl/src/rib_repl.rs:159-219 | strictly increasing places of the log hold the committed calls, one each, and a place of the log is among them if and only if its call was made by a line that succeeded and was not cleared since |
| Repl.NothingCalledAgain | rib-repl/src/rib_repl.rs:159-219 | over every session, also when retyping leads committed lines elsewhere: if each line finds what was before it unchanged or all its calls in the cache, everything a line appends to the log is behind the last position |
| Repl.LineEnds | rib-repl/src/eval.rs:7-18 | a line comes to an end if its script is disciplined, although the session answers by position |
| Repl.TameLineEnds | rib-repl/src/eval.rs:7-18 | so it does if the statements of its script are bindings and expressions of the plain class |
| Repl.ExactlyOnce | rib-repl/src/rib_repl.rs:159-219 | after every session, rerunning the committed script makes no call and repeats the committed calls with their answers; these are in the host's log once each and in order, at the places of the log made by lines that succeeded and were not cleared since |
| Repl.ReplState.UpdateCache | rib-repl/src/repl_state.rs:28-34 | enters one result and changes nothing else |
| Repl.ReplState.GetCachedResult | rib-repl/src/invoke.rs:45-54 | only positions up to the last executed one are answered |
| Repl.ReplState.Invoke | rib-repl/src/invoke.rs:57-114 | the call behind an instruction, as the session's world answers it: from the cache, or from the host and then remembered |
| Repl.ReplState.GenerateWorkerName | rib-repl/src/repl_state.rs:55-57 | the next name of the session |
| Repl.ReplState.ResetInstanceCount | rib-repl/src/repl_state.rs:51-53 | only the count of names starts again |
| Repl.ReplState.Clear | rib-repl/src/repl_state.rs:63-67 | script, cache and last position are forgotten, names are not |
| Repl.ReplState.UpdateRib | rib-repl/src/repl_state.rs:81-83 | the line is appended to the script |
| Repl.ReplState.RemoveLastRibExpression | rib-repl/src/raw.rs:15-17 | the last line is taken back, and nothing from an empty script |
| Repl.ReplState.Eval | rib-repl/src/eval.rs:7-18 | the last position moves to the end of the program exactly when the run succeeds |
| Repl.ReplState.Execute | rib-repl/src/rib_repl.rs:159-219 | appending, compiling, running and taking back in place is the line of the session model; settled sessions stay settled, and the log grows by the calls of the line |
| Inferred.Flatten | rib-lang/src/inferred_type/all_of.rs:1281-1299 | the flattened list has no set of alternatives in it and is no higher |
| Unification.TryUnify | rib-lang/src/inferred_type/unification.rs:21-133 | terminates on every type; the result is no set of alternatives and no higher than the type |
| Unification.UnifyBoth | rib-lang/src/inferred_type/unification.rs:221-496 | terminates on every pair; the result is no higher than both together, and no set of alternatives if neither is, so the arms for alternatives are never reached |
| Unification.UnifyFrom | rib-lang/src/inferred_type/unification.rs:209-219 | the accumulated type is no higher than what has gone into it and never a set of alternatives |
| Unification.UnifyAllTypes | rib-lang/src/inferred_type/unification.rs:209-219 | the loop that updates the unified type computes the fold over the alternatives |
| Unification.UnifyRecordFields | rib-lang/src/inferred_type/unification.rs:245-265 | the fields of the first record unified with those of the second, then the fields only the second one has |
| Unification.ValidHeight | rib-lang/src/inferred_type/unification.rs:498-630 | validation does not change the height of a type |
| UnifiedTypes.ValidExactly | rib-lang/src/inferred_type/unification.rs:498-630 | validation succeeds exactly on types with nothing unknown or ambiguous outside of one side of a result, and returns a type equal to its input |
| UnifiedTypes.UnifiedIsResolved | rib-lang/src/inferred_type/unification.rs:15-19 | a unified type is resolved, and unifying it again gives an equal type if and only if no alternatives are left in it |
| UnifiedTypes.DefiniteStays | rib-lang/src/inferred_type/unification.rs:21-133 | a type without alternatives unifies to an equal type |
| UnifiedTypes.OnlyDefiniteStays | rib-lang/src/inferred_type/unification.rs:21-133 | only a type without alternatives unifies to an equal type |
| UnifiedTypes.UnifyTwice | rib-lang/src/inferred_type/unification.rs:15-19 | on types without results unification is idempotent |
| UnifiedTypes.UnifyOnce | rib-lang/src/inferred_type/unification.rs:15-19 | with a result it is not: a unified type that does not unify again |
| UnifiedTypes.TryMeets | rib-lang/src/inferred_type/unification.rs:21-133 | unification keeps names of fields, cases and flags distinct, and makes up no results |
| UnifiedTypes.TrySize | rib-lang/src/inferred_type/unification.rs:21-133 | if no record, variant or set of flags repeats a name, the result has no more parts than the type |
| UnifiedTypes.BothSize | rib-lang/src/inferred_type/unification.rs:221-496 | and two types unify to one with no more parts than both together |
| UnifiedTypes.UnifySize | rib-lang/src/inferred_type/unification.rs:15-19 | and so for unification with validation |
| UnifiedTypes.RepeatedNameGrows | rib-lang/src/inferred_type/unification.rs:245-265 | two records, one with a repeated name, unify to a record with 11 parts although they have 9 together |
| UnifiedTypes.RecordByName | rib-lang/src/inferred_type/unification.rs:245-265 | a unified record has exactly the names of both records: under a shared name the two types unified, under any other name the type of the one record that has it |
| UnifiedTypes.RecordFails | rib-lang/src/inferred_type/unification.rs:245-265 | records that do not unify have a name in common under which the types do not |
| UnifiedTypes.CaseInUnified | rib-lang/src/inferred_type/unification.rs:396-418 | a unified variant has exactly the cases of both: with the payloads unified if both have one, and without payload otherwise |
| UnifiedTypes.CasesFail | rib-lang/src/inferred_type/unification.rs:396-418 | variants that do not unify have a case in common whose payloads do not |
| UnifiedTypes.NumbersUnify | rib-lang/src/inferred_type/unification.rs:472-494 | of two different numbers the one that is not a default wins if exactly one is a default, in either order; otherwise they do not unify |
| UnifiedTypes.AlternativeNumbers | rib-lang/src/inferred_type/unification.rs:209-219 | so do two numbers that are alternatives of one type |
| UnifiedTypes.BothGiveWay | rib-lang/src/inferred_type/unification.rs:221-243 | an unknown type gives way to any other and equal types to each other; a type that does not unify in itself fails |
| UnifiedTypes.ListsUnify | rib-lang/src/inferred_type/unification.rs:284-286 | two lists unify to the list of their unified elements, or fail with them |
| UnifiedTypes.OptionsUnify | rib-lang/src/inferred_type/unification.rs:350-352 | two options unify to the option of their unified payloads, or fail with them |
| UnifiedTypes.TuplesUnify | rib-lang/src/inferred_type/unification.rs:268-283 | two tuples unify item by item, and fail exactly when their sizes differ or two items do not unify |
| UnifiedTypes.ResultsUnify | rib-lang/src/inferred_type/unification.rs:367-395 | two results unify side by side; a side that only one has is taken as it is |
| UnifiedTypes.RangesUnify | rib-lang/src/inferred_type/unification.rs:311-334 | two ranges unify start by start and end by end; an end that only one has is taken as it is |
| UnifiedTypes.OptionTakesIn | rib-lang/src/inferred_type/unification.rs:354-365 | an option and another type unify to the option of both, each made definite before |
| UnifiedTypes.KindsFail | rib-lang/src/inferred_type/unification.rs:472-494 | other types of different kinds do not unify |
| UnifiedTypes.NamedUnify | rib-lang/src/inferred_type/unification.rs:336-348 | enums and resources only unify with the same |
| UnifiedTypes.FlagsUnify | rib-lang/src/inferred_type/unification.rs:287-309 | flags without repeated names unify if and only if one set has all names of the other, and to that one |
| UnifiedTypes.LeavesUnify | rib-lang/src/inferred_type/unification.rs:472-494 | booleans, characters, texts, instances and sequences only unify with equal types |
| UnifiedTypes.FlattenExactly | rib-lang/src/inferred_type/all_of.rs:1281-1300 | flattened alternatives are exactly those that are offered at any depth |
| UnifiedTypes.UnifySymmetric | rib-lang/src/inferred_type/unification.rs:221-496 | for types with distinct names both orders fail or both succeed, with types equal up to the order of fields, cases and flags |
| UnifiedTypes.RecordsSymmetric | rib-lang/src/inferred_type/unification.rs:245-265 | the same for records |
| UnifiedTypes.CasesSymmetric | rib-lang/src/inferred_type/unification.rs:396-418 | the same for variants |
| UnifiedTypes.FlagsSymmetric | rib-lang/src/inferred_type/unification.rs:287-311 | flags unify in one order exactly if they do in the other, to the same names |
| MergeTasks.MergeAll | rib-lang/src/inferred_type/all_of.rs:1237-1279 | the loop over the queue ends and computes the alternatives of the list |
| MergeTasks.MergeNormal | rib-lang/src/inferred_type/all_of.rs:1237-1279 | the merged type is in normal form: no alternatives, or at least two pairwise different ones, none unknown and none alternatives themselves |
| MergeTasks.MergeLeaves | rib-lang/src/inferred_type/all_of.rs:1237-1279 | the merged type has exactly the leaves and skeletons of the list |
| MergeTasks.EqualLeaves | rib-lang/src/inferred_type/mod.rs:571-575 | types that are equal up to origins have the same leaves and skeletons at the same paths |
| Inferred.SameExactly | rib-lang/src/inferred_type/mod.rs:571-575 | types are equal up to origins if and only if they are of one kind and their parts are, one by one; alternatives have no order |
| MergeTasks.PartsExactly | rib-lang/src/inferred_type/all_of.rs:1309-1546 | the parts of a type are its element, its payload, its sides, and its items, fields and payloads of cases, each at its place |
| MergeTasks.PlacesApart | rib-lang/src/inferred_type/all_of.rs:1309-1546 | the parts of one type have paths of their own |
| MergeTasks.SuitsExactly | rib-lang/src/inferred_type/all_of.rs:283-429 | a type with a skeleton suits exactly the builders of that skeleton: the same fields in the same order, the same cases with and without payload, the same size, the same sides |
| MergeTasks.OriginsAdded | rib-lang/src/inferred_type/type_origin.rs:139-190 | an added origin is the union of both, and is a default if and only if one of them is |
| MergeTasks.MergeLends | rib-lang/src/inferred_type/all_of.rs:1237-1279 | a merged type carries, shape by shape, exactly the origins of the types it is merged from |
| MergeTasks.InsertAllPoints | rib-lang/src/inferred_type/all_of.rs:1309-1546 | inserting the parts of a type into a builder keeps its pointers and adds exactly one for every part, at its place |
| MergeTasks.BuildLeaves | rib-lang/src/inferred_type/all_of.rs:53-217 | what a builder builds has exactly its own skeleton and the leaves and skeletons of the types its pointers lead to, each below its place |
| MergeTasks.MergedLeaves | rib-lang/src/inferred_type/all_of.rs:168-181 | what a set of pointers is merged to has exactly the leaves and skeletons of the types they lead to |
| Merging.QueueShrinks | rib-lang/src/inferred_type/all_of.rs:746-1105 | the types an inspection puts into the queue are together smaller than the type it took out, so the queue runs empty |
| Merging.FindBuilder | rib-lang/src/inferred_type/all_of.rs:283-429 | the first builder of the path that suits the type, and none only if there is none |
| Merging.MoveFits | rib-lang/src/inferred_type/all_of.rs:746-1105 | every inspection changes one slot to a task with the index of that slot whose new pointers lead exactly to the new slots, each for the path of its part |
| Merging.ApplyShaped | rib-lang/src/inferred_type/all_of.rs:252-269 | such a change keeps every slot holding its own task, every pointer leading to a later slot for the right path, and every slot either pointed to or made for an input |
| Merging.KidsLeaves | rib-lang/src/inferred_type/all_of.rs:1309-1546 | the leaves and skeletons of a type are its own skeleton and those of the parts that are put into the queue for it, at the paths they get |
| Merging.RunKeeps | rib-lang/src/inferred_type/all_of.rs:730-1112 | the invariant of the stack holds when the queue has run empty |
| Merging.RunConserves | rib-lang/src/inferred_type/all_of.rs:730-1112 | over the whole run a leaf waits in the queue or is in a completed slot, and a skeleton waits or has a builder, if and only if it was there at the start, and no inspected slot, even one absorbed by another builder, has one that was not |
| Merging.FinalShaped | rib-lang/src/inferred_type/all_of.rs:730-1112 | for inputs that are no sets of alternatives, slot i of the final stack holds the task with index i and its pointers lie strictly between i and the length of the stack |
| Merging.TypesStable | rib-lang/src/inferred_type/all_of.rs:45-226 | going from the last task to the first, every type is computed before it is used and never changed afterwards |
| Merging.SlotReaches | rib-lang/src/inferred_type/all_of.rs:53-217 | a slot with pointers has exactly the leaves and skeletons of the slots they lead to, and the skeleton of its builder |
| Merging.UnusedAreRoots | rib-lang/src/inferred_type/all_of.rs:228-235 | the indices that completion does not use are exactly those of slots made for inputs |
| Merging.AllOfLeaves | rib-lang/src/inferred_type/all_of.rs:40-242 | for inputs that are no sets of alternatives the result has exactly the leaves and skeletons of the inputs, path by path |
| Merging.AllOfNormal | rib-lang/src/inferred_type/all_of.rs:40-242 | and it is in normal form |
| Merging.AllOfOnce | rib-lang/src/inferred_type/all_of.rs:40-242 | no two alternatives of the result have the same skeleton |
| Merging.SkeletonsKept | rib-lang/src/inferred_type/all_of.rs:40-242 | the alternatives of the result have exactly the skeletons of the inputs, each once, so inputs of one skeleton end in one part and inputs of different skeletons stay apart |
| Merging.OneSkeleton | rib-lang/src/inferred_type/all_of.rs:40-242 | inputs that all have one skeleton merge to one type of that skeleton |
| Merging.AddParts | rib-lang/src/inferred_type/all_of.rs:1309-1546 | the loop over the parts fills the builder and makes the inspections with consecutive indices |
| Merging.MergeTaskStack.Find | rib-lang/src/inferred_type/all_of.rs:283-429 | the loop over the tasks finds the first builder that suits |
| Merging.MergeTaskStack.Update | rib-lang/src/inferred_type/all_of.rs:252-269 | replaces the task at the index, or appends it when there is none |
| Merging.MergeTaskStack.Extend | rib-lang/src/inferred_type/all_of.rs:248-250 | appends the tasks |
| Merging.MergeTaskStack.Process | rib-lang/src/inferred_type/all_of.rs:746-1105 | one inspection in place is one move of the stack model and returns the inspections it queued |
| Merging.MergeTaskStack.Finish | rib-lang/src/inferred_type/all_of.rs:40-242 | the reverse pass with its two tables computes the completion of the stack model |
| Merging.GetMergeTask | rib-lang/src/inferred_type/all_of.rs:730-1112 | the loop over the queue ends and leaves the tasks of the run |
| Merging.AllOfTypes | rib-lang/src/inferred_type/mod.rs:459-461 | merging a list keeps exactly its leaves and skeletons, gives a normal form, and keeps every skeleton once, if no type of the list is a set of alternatives |
| Merging.MergeTwoNormal | rib-lang/src/inferred_type/mod.rs:512-545 | merging two types in normal form gives one in normal form |
| Merging.MergeTwoLeaves | rib-lang/src/inferred_type/mod.rs:512-545 | it has the leaves and skeletons of both and no others |
| Merging.MergeTwoOrigins | rib-lang/src/inferred_type/mod.rs:512-545 | an unknown type gives way to the other one, equal types become one, and what is left carries exactly the origins of both |
| Merging.MergeTwoOnce | rib-lang/src/inferred_type/mod.rs:512-545 | no two alternatives of it have the same skeleton |
| Merging.RunsStayNormal | rib-lang/src/inferred_type/mod.rs:512-545 | after any number of merges the type is in normal form, has exactly the leaves and skeletons of everything that was merged, and no two alternatives of one skeleton |
| Merging.NeverAlternatives | rib-lang/src/inferred_type/mod.rs:512-545 | so the list handed on by a merge never contains a set of alternatives |
| ExprArenas.BelowNodes | rib-lang/src/expr_arena.rs:920-1591 | the trees below a tree have together fewer nodes than the tree, so lowering ends |
| ExprArenas.RefsBefore | rib-lang/src/expr_arena.rs:430-788 | in an arena whose nodes refer to earlier nodes, also across the two tables, every reference leads down a rank, so rebuilding ends |
| ExprArenas.Rebuild | rib-lang/src/expr_arena.rs:430-845 | terminates on every such arena and rebuilds an expression from an expression node and a pattern from a pattern node |
| ExprArenas.KindsBack | rib-lang/src/expr_arena.rs:920-1591 | a node with its references replaced by the trees they were made of is the expression again |
| ExprArenas.PatternsBack | rib-lang/src/expr_arena.rs:1618-1670 | the same for patterns |
| ExprArenas.AllocKeeps | rib-lang/src/expr_arena.rs:369-376 | a new node over nodes of the arena keeps the arena well founded and leaves all nodes and types as they are |
| ExprArenas.RebuildExtends | rib-lang/src/expr_arena.rs:430-845 | a larger arena rebuilds what was in the smaller one as before |
| ExprArenas.LowerStands | rib-lang/src/expr_arena.rs:920-1591 | lowering into any well-founded arena gives a node that rebuilds the tree with its types, spans and annotations, keeps what was there and types every new expression |
| ExprArenas.RoundTrip | rib-lang/src/expr_arena.rs:408-413 | lowering into an empty arena and rebuilding gives the same expression |
| ExprArenas.LowerLeaves | rib-lang/src/expr_arena.rs:418-420 | lowering another tree changes the rebuild of no earlier node |
| ExprArenas.TypeTable.Set | rib-lang/src/expr_arena.rs:312-314 | enters the type of one node |
| ExprArenas.ExprArena.AllocExpr | rib-lang/src/expr_arena.rs:369-371 | appends the node and gives its index |
| ExprArenas.ExprArena.AllocPattern | rib-lang/src/expr_arena.rs:374-376 | appends the node and gives its index |
| ExprArenas.LowerTree | rib-lang/src/expr_arena.rs:920-1591 | lowering in place leaves the tables of the lowering model |
| ExprArenas.LowerInto | rib-lang/src/expr_arena.rs:418-420 | the new node rebuilds the expression, everything that was in the arena is rebuilt as before, and every new expression has a type |
| ExprArenas.LowerExpr | rib-lang/src/expr_arena.rs:408-413 | the fresh arena rebuilds the expression and types every node |

## Left out

- Correctness.CompiledMeaning: the discipline is sufficient and checked statically; that it is also necessary is not claimed. Two families of expressions outside of it are shown to be misread. The world may not depend on the position of a call (`Running.PositionBlind`); for worlds that do, `Correctness.Evaluate` and `Correctness.SameEnd` speak of the answers of the run.
- Correctness.Evaluate: with a host that looks at positions the state the host is left in is not stated here; for the REPL it is treated in `Replay` and `Repl`.
- MatchDesugaring.MatchMeans: list patterns, unit cases written as constructors, and scrutinees whose evaluation changes something (they are copied, so a call would be repeated).
- RangeSelections.OpenRangePicks: the list and the start are expressions without effects on the three variables the rewriting uses; a list expression is copied, so one with calls would be repeated. Lists are shorter than 2^63.
- Machine.Interpret: is called for a run that comes to an end; programs without loops always end by `LoopFree.EndsInTime`, and disciplined programs by `Correctness.DisciplinedEnds`.
- Repl.ReplState.Execute: the number of steps of the run is a ghost parameter, for the same reason; scripts that keep the discipline always have one by `Repl.LineEnds`.
- Repl.ReplState.Eval: likewise is called for a program whose run ends.
- Repl.ReplState.Invoke: the interpreter of the model talks to the function `Replay.InvokeIn` that this method is proved equal to, not to the method; the locks around the state are left out, every method runs alone.
- Repl.ExactlyOnce: every line leaves the course of the script before it as it was; when retyping leads a committed line elsewhere, some of its calls may no longer be made, and `Repl.NothingCalledAgain` says that none is made again. Calls in loops are excluded, since the cache keeps one answer per instruction (`Repl.LoopsAreNotRepeated`). When a line retypes earlier statements, positions and answers of committed calls are those in the log, their arguments may have other types.
- Unification.TryUnify: termination goes by a height in which alternatives count with their sum, because the number of parts is no bound when a record repeats a name (`UnifiedTypes.RepeatedNameGrows`). Error messages are reduced to the types involved.
- UnifiedTypes.UnifySymmetric: the origin of the chosen side differs between the two orders.
- MergeTasks.MergeAll: alternatives stand in the order in which they were met; the code sorts them and iterates over hash tables. Which of two equal types lends its origin follows the code, the order of the final list does not.
- Merging.SkeletonsKept: a variant that repeats the name of a case has no skeleton; such a variant can be absorbed by one of other cases (`MergeTasks.RepeatedCaseShares`).
- Merging.FindBuilder: whether a slot still holds the inspected task is compared with origins, which agrees with the code's comparison on all stacks that arise, because the slot then holds the task itself.
- ExprArenas.BelowNodes: lowering goes over the list of parts of an expression in the order of the code, instead of naming each part.
- ExprArenas.Lower: structural changes of nodes between lowering and rebuilding are not part of this model.
- ByteCode.CallPlan: the generator panics on a call of a function without any instance; here that is the error `MissingInstance`.
- Floating point rounding, not-a-number, infinities and wrap-around of numbers: numbers are exact.
- Printing of values (for string concatenation and numeric instance names) is a parameter of the world.
- Parsing, type inference and type checks, registry lookups, Wasm Wave, commands, history, progress output and rustyline editing.
- Export paths, generation of values, builders and getters without behaviour of their own.
