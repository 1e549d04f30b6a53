/** Where running differs from meaning: operands that are misread, and a script that calls again after it has been retyped. */
module Misreadings {
  import opened Syntax
  import opened Values
  import opened Machine
  import opened ByteCode
  import opened Evaluation
  import opened Running
  import Simulation
  import opened InstanceNames
  import opened Replay
  import opened Retyping
  import opened Repl

  // ===== Why the discipline is needed: operands that leave something below their value are misread by the operator.

  function Equals(l: Expr, r: Expr): Expr { MkEq(l, r) }

  lemma GenBool(b: bool, n: nat)
    ensures Gen(MkBool(b), n) == Ok(Code([PushLit(BoolVT(b))], n))
  {
    hide Gen, Weight, MatchPlan, CallPlan, SelectPlan;
    GenUnfold(MkBool(b), n);
    assert PlanOf(MkBool(b), n) == Operands([], [PushLit(BoolVT(b))]);
    assert Plainly([]) == [];
    ByteCode.EmptyChunks(n);
    assert [] + [PushLit(BoolVT(b))] == [PushLit(BoolVT(b))];
  }

  /** The right operand, the left one, the comparison. */
  lemma GenEquals(l: Expr, r: Expr, n: nat)
    requires hide *; Gen(l, n).Ok? && Gen(r, Gen(l, n).value.last).Ok?
    ensures Gen(Equals(l, r), n).Ok?
    ensures Gen(Equals(l, r), n).value.code
            == Gen(r, Gen(l, n).value.last).value.code + Gen(l, n).value.code + [CompareIR(EqualTo)]
  {
    hide Gen, Weight, GenChunks, MatchPlan, LeafPlan, CallPlan, SelectPlan;
    var g := Gen(l, n).value;
    GenUnfold(Equals(l, r), n);
    assert PlanOf(Equals(l, r), n) == Operands([r, l], [CompareIR(EqualTo)]);
    assert [r, l] == [r] + [l];
    ByteCode.LastChunk([r], l, n);
    assert Plainly([r]) == [Chunk(r, [])];
    Simulation.OneChunk(r, g.last);
  }

  // ---------- values before the last one of a block ----------

  /** In `{ x; y } == z` the machine compares y with x, and leaves z below the answer. */
  lemma BlockOperandMisread<H(!new)>(w: World<H>, x: bool, y: bool, z: bool, st: State<H>)
    requires hide *; PositionBlind(w)
    ensures var e := Equals(MkBlock([MkBool(x), MkBool(y)]), MkBool(z));
            && Eval(w, e, st.env, st.h) == Done(Some(MkVal(y == z)), st.env, st.h)
            && Discipline(e).None?
            && Gen(e, 0).Ok?
            && var code := Gen(e, 0).value.code;
               Reach(w, code, Run(0, st), Run(|code|, st.(stack := st.stack + [MkVal(z), MkVal(y == x)])))
  {
    hide PositionBlind, Gen, Weight, Eval, Discipline, Reach, ExecAll, Equals;
    var l := MkBlock([MkBool(x), MkBool(y)]);
    var e := Equals(l, MkBool(z));
    PairMeaning(w, x, y, st.env, st.h);
    EqualsMeaning(w, l, z, st.env, st.h);
    PairDiscipline(x, y);
    JunkRefused(l, MkBool(z));
    PairCode(x, y, 0);
    GenBool(z, 0);
    GenEquals(l, MkBool(z), 0);
    var code := [PushLit(BoolVT(z)), PushLit(BoolVT(x)), PushLit(BoolVT(y)), CompareIR(EqualTo)];
    assert Gen(e, 0).value.code == code;
    MisreadRun(w, x, y, z, st);
    StraightRun(w, code, 0, code, st);
  }

  lemma PairCode(x: bool, y: bool, n: nat)
    ensures Gen(MkBlock([MkBool(x), MkBool(y)]), n) == Ok(Code([PushLit(BoolVT(x)), PushLit(BoolVT(y))], n))
  {
    hide Gen, Weight, GenChunks;
    Simulation.BlockCode(MkBlock([MkBool(x), MkBool(y)]), n);
    GenBool(x, n);
    GenBool(y, n);
    assert [MkBool(x), MkBool(y)] == [MkBool(x)] + [MkBool(y)];
    ByteCode.LastChunk([MkBool(x)], MkBool(y), n);
    assert Plainly([MkBool(x)]) == [Chunk(MkBool(x), [])];
    Simulation.OneChunk(MkBool(x), n);
    assert [PushLit(BoolVT(x))] + [PushLit(BoolVT(y))] == [PushLit(BoolVT(x)), PushLit(BoolVT(y))];
  }

  lemma {:induction false} PairMeaning<H>(w: World<H>, x: bool, y: bool, env: Env, h: H)
    ensures Eval(w, MkBlock([MkBool(x), MkBool(y)]), env, h) == Done(Some(MkVal(y)), env, h)
  {
    hide Weight, Eval, EvalBlock, WeightAll, BlockDiscipline, Discipline;
    Simulation.BlockMeaning(w, MkBlock([MkBool(x), MkBool(y)]), env, h);
    assert [MkBool(x), MkBool(y)] == ([] + [MkBool(x)]) + [MkBool(y)];
    Simulation.EvalLastStatement(w, [] + [MkBool(x)], MkBool(y), env, h);
    Simulation.EvalLastStatement(w, [], MkBool(x), env, h);
    Simulation.EmptyMeaning(w, env, h);
    Simulation.EvalTrue(w, x, env, h);
    Simulation.EvalTrue(w, y, env, h);
  }

  lemma {:induction false} EqualsMeaning<H>(w: World<H>, l: Expr, z: bool, env: Env, h: H)
    requires hide *; Eval(w, l, env, h).Done? && Eval(w, l, env, h).v.Some? && IsFlag(Eval(w, l, env, h).v.value)
    ensures var o := Eval(w, l, env, h);
            Eval(w, Equals(l, MkBool(z)), env, h) == Done(Some(MkVal(FlagOf(o.v.value) == z)), o.env, o.h)
  {
    hide Weight, Eval, EvalAll, Combine, MkEq, Ops, Reverse, MkBool, IsFlag, MkVal, FlagOf;
    var e := Equals(l, MkBool(z));
    var o := Eval(w, l, env, h);
    EqualsOps(l, MkBool(z));
    Simulation.EvalStrict(w, e, env, h);
    Simulation.EvalLastOperand(w, [] + [MkBool(z)], l, env, h);
    Simulation.EvalLastOperand(w, [], MkBool(z), env, h);
    Simulation.EvalNone(w, env, h);
    Simulation.EvalTrue(w, z, env, h);
    assert Reverse([] + [MkVal(z)] + [o.v.value]) == [o.v.value, MkVal(z)];
    EqualsCombine(w, l, MkBool(z), o.v.value, z, o.env, o.h);
  }

  lemma EqualsOps(l: Expr, r: Expr)
    ensures IsStrict(Equals(l, r)) && Ops(Equals(l, r)) == ([] + [r]) + [l]
  {
  }

  lemma {:induction false} EqualsCombine<H>(w: World<H>, l: Expr, r: Expr, v: StackValue, z: bool, env: Env, h: H)
    requires hide *; IsFlag(v)
    ensures IsStrict(Equals(l, r)) && |Ops(Equals(l, r))| == 2
    ensures Combine(w, Equals(l, r), [v, MkVal(z)], env, h) == Given(Some(MkVal(FlagOf(v) == z)), h)
  {
    hide Weight, Eval, EvalAll, UnaryValue, LeafValue, CallValue, ListValue, WitOf;
  }

  predicate IsFlag(v: StackValue) { v == MkVal(true) || v == MkVal(false) }

  function FlagOf(v: StackValue): bool { v == MkVal(true) }

  lemma PairDiscipline(x: bool, y: bool)
    ensures Discipline(MkBlock([MkBool(x), MkBool(y)])) == Some(Shape(true, true, true))
  {
    hide Weight, Discipline;
    assert [MkBool(x), MkBool(y)][..1] == [MkBool(x)] && [MkBool(x)][..0] == [];
    Simulation.DisciplineTrue(x);
    Simulation.DisciplineTrue(y);
    assert BlockDiscipline([MkBool(x)]) == Some(Shape(true, false, true));
    BlockIsBlock(MkBlock([MkBool(x), MkBool(y)]));
  }

  lemma BlockIsBlock(e: Expr)
    requires hide *; e.kind.Block?
    ensures Discipline(e) == BlockDiscipline(e.kind.exprs)
  {
    hide PlanOf, Ops, OperandDiscipline, BlockDiscipline, WeightAll, ArgsFit, ChunksWeight;
  }

  /** A left operand that leaves something is refused. */
  lemma JunkRefused(l: Expr, r: Expr)
    requires hide *; Discipline(l).Some? && Discipline(l).value.junk
    ensures Discipline(Equals(l, r)).None?
  {
    hide Discipline, Weight;
    Simulation.DisciplineOfStrict(Equals(l, r));
    assert Ops(Equals(l, r)) == [r, l] && [r, l][..1] == [r];
  }

  lemma {:induction false} MisreadRun<H>(w: World<H>, x: bool, y: bool, z: bool, st: State<H>)
    ensures ExecAll(w, [PushLit(BoolVT(z)), PushLit(BoolVT(x)), PushLit(BoolVT(y)), CompareIR(EqualTo)], st)
            == Next(st.(stack := st.stack + [MkVal(z), MkVal(y == x)]))
  {
    hide Exec, ExecAll;
    var a, b, c, d := PushLit(BoolVT(z)), PushLit(BoolVT(x)), PushLit(BoolVT(y)), CompareIR(EqualTo);
    assert [a, b, c, d] == [a] + ([b] + ([c] + [d]));
    Push(w, BoolVT(z), st, [b] + ([c] + [d]));
    var st1 := st.(stack := st.stack + [MkVal(z)]);
    Push(w, BoolVT(x), st1, [c] + [d]);
    var st2 := st.(stack := st1.stack + [MkVal(x)]);
    Push(w, BoolVT(y), st2, [d]);
    assert st2.stack + [MkVal(y)] == st1.stack + [MkVal(x), MkVal(y)];
    CompareTwo(w, x, y, st1);
    assert st1.stack + [MkVal(y == x)] == st.stack + [MkVal(z), MkVal(y == x)];
  }

  lemma {:induction false} CompareTwo<H>(w: World<H>, x: bool, y: bool, st: State<H>)
    ensures ExecAll(w, [CompareIR(EqualTo)], st.(stack := st.stack + [MkVal(x), MkVal(y)]))
            == Next(st.(stack := st.stack + [MkVal(y == x)]))
  {
    hide Exec, ExecAll, TagOf, Concatenated;
    OneValue(w, CompareIR(EqualTo), st.stack, [MkVal(x), MkVal(y)], st.env, st.h);
    assert Reverse([MkVal(x), MkVal(y)]) == [MkVal(y), MkVal(x)];
  }

  lemma {:induction false} Push<H>(w: World<H>, vt: ValueAndType, st: State<H>, more: seq<IR>)
    ensures ExecAll(w, [PushLit(vt)] + more, st) == ExecAll(w, more, st.(stack := st.stack + [Val(vt)]))
  {
    hide Exec, ExecAll, MathValues, CompareValues, Iterated, TagOf, SelectItem;
    ExecAllAppend(w, [PushLit(vt)], more, st);
    assert st.stack + [] == st.stack;
    OneValue(w, PushLit(vt), st.stack, [], st.env, st.h);
  }

  // ---------- the iterator of a reduction ----------

  const BOOLS: InferredType := Plain(TList(Plain(TBool)))

  /** A reduction of the empty list of booleans that starts with `start`. */
  function EmptyReduction(start: bool): Expr {
    Mk(Reduce(ListReduce("acc"), ListComprehension("x"), Expr(ListOf(Sequence, []), BOOLS, NO_NOTE), MkBool(start), MkBool(start)))
  }

  function EmptyReductionCode(start: bool): seq<IR> {
    hide *;
    [PushList(WList(WBool), 0), PushLit(BoolVT(start)), AssignVar(ListReduce("acc")), ToIterator]
    + LoopHead(0, ListComprehension("x"))
    + [PushLit(BoolVT(start)), AssignVar(ListReduce("acc")), Jump(1), Label(2), LoadVar(ListReduce("acc"))]
  }

  lemma GenEmptyList(n: nat)
    ensures hide *; Gen(Expr(ListOf(Sequence, []), BOOLS, NO_NOTE), n) == Ok(Code([PushList(WList(WBool), 0)], n))
  {
    hide Gen, Weight, MatchPlan, LeafPlan;
    var e := Expr(ListOf(Sequence, []), BOOLS, NO_NOTE);
    GenUnfold(e, n);
    assert WitOf(BOOLS) == Some(WList(WBool));
    assert Reverse<Expr>([]) == [] && Plainly([]) == [];
    assert PlanOf(e, n) == Operands([], [PushList(WList(WBool), 0)]);
    ByteCode.EmptyChunks(n);
    assert [] + [PushList(WList(WBool), 0)] == [PushList(WList(WBool), 0)];
  }

  lemma ReductionPlan(e: Expr, n: nat)
    requires hide *; e.kind.Reduce?
    ensures PlanOf(e, n) == Parts(ReduceChunks(e.kind.reduced, e.kind.iterated, e.kind.iterable, e.kind.init, e.kind.body, n), [], 2)
  {
    hide MatchPlan, WitOf, Weight;
  }

  lemma GenEmptyReduction(start: bool)
    ensures hide *; Gen(EmptyReduction(start), 0) == Ok(Code(EmptyReductionCode(start), 2))
  {
    hide Gen, Weight, GenChunks, PlanOf, ChunksWeight;
    var e := EmptyReduction(start);
    var Reduce(rx, x, i, s, b) := e.kind;
    var cs := ReduceChunks(rx, x, i, s, b, 0);
    GenUnfold(e, 0);
    ReductionPlan(e, 0);
    GenBool(start, 2);
    GenEmptyList(2);
    assert cs == [cs[0], cs[1], cs[2]];
    GenThree(cs[0], cs[1], cs[2], 2, [PushList(WList(WBool), 0)], [PushLit(BoolVT(start))], [PushLit(BoolVT(start))]);
    assert EmptyReductionCode(start)
      == ([PushList(WList(WBool), 0)] + []) + ([PushLit(BoolVT(start))] + cs[1].tail) + ([PushLit(BoolVT(start))] + cs[2].tail) + [];
  }

  lemma {:induction false} GenThree(a: Chunk, b: Chunk, c: Chunk, n: nat, ca: seq<IR>, cb: seq<IR>, cc: seq<IR>)
    requires Gen(a.e, n) == Ok(Code(ca, n)) && Gen(b.e, n) == Ok(Code(cb, n)) && Gen(c.e, n) == Ok(Code(cc, n))
    ensures GenChunks([a, b, c], n) == Ok(Code((ca + a.tail) + (cb + b.tail) + (cc + c.tail), n))
  {
    hide Gen, Weight;
    assert [a, b, c][..2] == [a, b] && [a, b][..1] == [a] && [a][..0] == [];
    assert GenChunks([], n) == Ok(Code([], n));
    assert GenChunks([a], n) == Ok(Code([] + (ca + a.tail), n)) && [] + (ca + a.tail) == ca + a.tail;
    assert GenChunks([a, b], n) == Ok(Code((ca + a.tail) + (cb + b.tail), n));
  }

  function MisreadReduction(start: bool, z: bool): seq<IR> {
    [PushLit(BoolVT(z))] + EmptyReductionCode(start) + [CompareIR(EqualTo)]
  }

  lemma {:induction false} ReductionMeaning<H>(w: World<H>, start: bool, env: Env, h: H)
    ensures Eval(w, EmptyReduction(start), env, h) == Done(Some(MkVal(start)), env[ListReduce("acc") := MkVal(start)], h)
  {
    hide Weight, Eval, Fold, EvalAll, BinaryValue, LeafValue;
    var e := EmptyReduction(start);
    var list := e.kind.iterable;
    Simulation.EvalReduction(w, e, env, h);
    Simulation.EvalStrict(w, list, env, h);
    Simulation.EvalNone(w, env, h);
    assert Ops(list) == [] && Reverse<StackValue>([]) == [];
    assert WitOf(BOOLS) == Some(WList(WBool));
    assert ValuesOf([]) == [] && Itemized([], WBool) == [];
    Simulation.EvalTrue(w, start, env, h);
    var env1 := env[ListReduce("acc") := MkVal(start)];
    Simulation.FoldUnfold(w, ListReduce("acc"), ListComprehension("x"), MkBool(start), [], env1, h);
  }

  lemma ReductionDiscipline(start: bool)
    ensures Discipline(EmptyReduction(start)) == Some(Shape(true, true, false))
  {
    hide Weight, Discipline;
    Simulation.DisciplineTrue(start);
    Simulation.DisciplineOfStrict(EmptyReduction(start).kind.iterable);
    assert OperandDiscipline(Ops(EmptyReduction(start).kind.iterable)) == Some(false);
    ReductionIsReduction(EmptyReduction(start));
  }

  lemma ReductionIsReduction(e: Expr)
    requires hide *; e.kind.Reduce?
    requires Yields(Discipline(e.kind.iterable)) && Neat(Discipline(e.kind.init)) && Neat(Discipline(e.kind.body))
    ensures Discipline(e) == Some(Shape(true, true, false))
  {
    hide Weight, PlanOf, OperandDiscipline, BlockDiscipline, Ops, ArgsFit, ChunksWeight, SolidResult, IsThrow;
  }

  lemma {:induction false} Between(prog: seq<IR>, a: IR, c: seq<IR>, b: IR)
    requires prog == [a] + c + [b]
    ensures |prog| == |c| + 2 && prog[0] == a && prog[|c| + 1] == b && forall i :: 0 < i <= |c| ==> prog[i] == c[i - 1]
  {
  }

  lemma {:induction false} EmptyItems(c: seq<IR>, start: bool)
    requires hide *; c == EmptyReductionCode(start)
    ensures |c| == 14 && c[0] == PushList(WList(WBool), 0) && c[1] == PushLit(BoolVT(start)) && c[2] == AssignVar(ListReduce("acc"))
    ensures c[3] == ToIterator && c[4] == Label(1) && c[5] == IsEmpty && c[6] == JumpIfFalse(2) && c[7] == AdvanceIterator
    ensures c[8] == AssignVar(ListComprehension("x")) && c[12] == Label(2) && c[13] == LoadVar(ListReduce("acc"))
    ensures forall i :: 0 <= i < 14 && c[i].Label? ==> i == 4 || i == 12
  {
    hide BoolVT;
  }

  lemma {:induction false} ReductionItems(prog: seq<IR>, start: bool, z: bool)
    requires hide *; prog == MisreadReduction(start, z)
    ensures |prog| == 16 && prog[..3] == [PushLit(BoolVT(z)), PushList(WList(WBool), 0), PushLit(BoolVT(start))]
    ensures prog[3] == AssignVar(ListReduce("acc")) && prog[4] == ToIterator && prog[14] == LoadVar(ListReduce("acc"))
    ensures prog[5] == Label(1) && prog[6] == IsEmpty && prog[7] == JumpIfFalse(2) && prog[8] == AdvanceIterator
    ensures prog[9] == AssignVar(ListComprehension("x")) && prog[13] == Label(2) && prog[15] == CompareIR(EqualTo)
    ensures forall i :: 0 <= i < 16 && prog[i].Label? ==> i == 5 || i == 13
  {
    hide EmptyReductionCode, BoolVT;
    var c := EmptyReductionCode(start);
    EmptyItems(c, start);
    Between(prog, PushLit(BoolVT(z)), c, CompareIR(EqualTo));
  }

  lemma {:induction false} ReductionLoopAt(prog: seq<IR>, start: bool, z: bool)
    requires hide *; prog == MisreadReduction(start, z)
    ensures |prog| == 16 && LoopAt(prog, 0, ListComprehension("x"), 5, 13)
  {
    hide MisreadReduction;
    ReductionItems(prog, start, z);
  }

  lemma {:induction false} PushesThree<H>(w: World<H>, start: bool, z: bool, st: State<H>)
    ensures hide *; ExecAll(w, [PushLit(BoolVT(z)), PushList(WList(WBool), 0), PushLit(BoolVT(start))], st)
            == Next(st.(stack := st.stack + [MkVal(z)] + [Val(VT(VList([]), WList(WBool)))] + [MkVal(start)]))
  {
    hide Exec, ExecAll, MathValues, CompareValues;
    var a, b, c := PushLit(BoolVT(z)), PushList(WList(WBool), 0), PushLit(BoolVT(start));
    assert [a, b, c] == [a] + ([b] + [c]);
    Push(w, BoolVT(z), st, [b] + [c]);
    var st1 := st.(stack := st.stack + [MkVal(z)]);
    ExecAllAppend(w, [b], [c], st1);
    assert st1.stack + [] == st1.stack;
    OneValue(w, b, st1.stack, [], st1.env, st1.h);
    assert Reverse<StackValue>([]) == [] && ValuesOf([]) == [];
    var st2 := st1.(stack := st1.stack + [Val(VT(VList([]), WList(WBool)))]);
    assert [c] == [c] + [];
    Push(w, BoolVT(start), st2, []);
    ExecNothing(w, st2.(stack := st2.stack + [MkVal(start)]));
  }

  /** As a left operand a reduction has a meaning, but the machine compares its value with its exhausted iterator and
      reports an error. */
  lemma ReductionOperandMisread<H(!new)>(w: World<H>, start: bool, z: bool, st: State<H>)
    requires hide *; PositionBlind(w)
    ensures var e := Equals(EmptyReduction(start), MkBool(z));
            && Eval(w, e, st.env, st.h) == Done(Some(MkVal(start == z)), st.env[ListReduce("acc") := MkVal(start)], st.h)
            && Discipline(e).None?
            && Gen(e, 0).Ok?
            && Reach(w, Gen(e, 0).value.code, Run(0, st), Failed(st.h))
  {
    hide PositionBlind, Gen, Weight, Eval, Discipline, Reach, ExecAll, ByteCode.Unique, MisreadReduction,
         EmptyReductionCode, EmptyReduction, BoolVT;
    var e := Equals(EmptyReduction(start), MkBool(z));
    ReductionMeaning(w, start, st.env, st.h);
    EqualsMeaning(w, EmptyReduction(start), z, st.env, st.h);
    ReductionDiscipline(start);
    JunkRefused(EmptyReduction(start), MkBool(z));
    GenEmptyReduction(start);
    GenBool(z, 2);
    GenEquals(EmptyReduction(start), MkBool(z), 0);
    ReductionRun(w, start, z, st);
    MisreadIs(start, z);
  }

  lemma MisreadIs(start: bool, z: bool)
    ensures MisreadReduction(start, z) == [PushLit(BoolVT(z))] + EmptyReductionCode(start) + [CompareIR(EqualTo)]
  {
  }

  /** The machine behind the loop head: z, the empty iterator, and the accumulator bound. */
  function Looped<H>(start: bool, z: bool, st: State<H>): State<H> {
    State(st.stack + [MkVal(z)] + [Iter([])], st.env[ListReduce("acc") := MkVal(start)], st.h)
  }

  lemma ReductionEnters<H(!new)>(w: World<H>, prog: seq<IR>, start: bool, z: bool, st: State<H>)
    requires hide *; PositionBlind(w) && prog == MisreadReduction(start, z)
    ensures Reach(w, prog, Run(0, st), Run(6, Looped(start, z, st)))
  {
    hide PositionBlind, Reach, ExecAll, ByteCode.Unique, MisreadReduction, EmptyReductionCode, Exec, LoopAt, Step;
    ReductionItems(prog, start, z);
    ReductionLoopAt(prog, start, z);
    var list := Val(VT(VList([]), WList(WBool)));
    var base := st.stack + [MkVal(z)];
    PushesThree(w, start, z, st);
    assert prog == prog[..3] + prog[3..];
    WholeAt(prog, 3);
    StraightRun(w, prog, 0, prog[..3], st);
    EntersFold(w, prog, 0, ListReduce("acc"), ListComprehension("x"), 3, 13, base, list, MkVal(start), st.env, st.h);
    assert Itemized([], WBool) == [];
    assert Iterated(list) == Some(Iter([])) && IteratedItems(list) == [];
    assert base + [Iter([])] + [] == base + [Iter([])];
    ReachTrans(w, prog, Run(0, st), Run(3, State(base + [list] + [MkVal(start)], st.env, st.h)), Run(6, Looped(start, z, st)));
  }

  lemma ReductionRun<H(!new)>(w: World<H>, start: bool, z: bool, st: State<H>)
    requires hide *; PositionBlind(w)
    ensures Reach(w, MisreadReduction(start, z), Run(0, st), Failed(st.h))
  {
    hide PositionBlind, Reach, ExecAll, ByteCode.Unique, MisreadReduction, EmptyReductionCode, Exec, LoopAt, Step;
    var prog := MisreadReduction(start, z);
    ReductionItems(prog, start, z);
    ReductionLoopAt(prog, start, z);
    ReductionEnters(w, prog, start, z, st);
    var base, looped := st.stack + [MkVal(z)], Looped(start, z, st);
    assert base + [Iter([])] + [] == looped.stack;
    LoopTest(w, prog, 0, ListComprehension("x"), 5, 13, base, [], [], looped.env, st.h);
    LoadReaches(w, prog, 14, looped);
    var loaded := State(looped.stack + [MkVal(start)], looped.env, st.h);
    ReachTrans(w, prog, Run(0, st), Run(6, looped), Run(14, looped));
    ReachTrans(w, prog, Run(0, st), Run(14, looped), Run(15, loaded));
    assert loaded.stack == base + [Iter([]), MkVal(start)];
    ComparesIterator(w, base, start, looped.env, st.h);
    ExecBlind(w, CompareIR(EqualTo), 16, 0, loaded);
    StepStop(w, prog, 15, loaded);
    ReachTrans(w, prog, Run(0, st), Run(15, loaded), Failed(st.h));
  }

  lemma WholeAt(prog: seq<IR>, k: nat)
    requires hide *; k <= |prog|
    ensures Running.At(prog, 0, prog[..k])
  {
  }

  lemma {:induction false} ComparesIterator<H>(w: World<H>, base: seq<StackValue>, b: bool, env: Env, h: H)
    ensures hide *; Exec(w, CompareIR(EqualTo), 0, State(base + [Iter([]), MkVal(b)], env, h)) == Stop(h)
  {
    hide Exec, CompareTyped, MathValues, Iterated, SelectItem, UpdateField;
    ValueStep(w, CompareIR(EqualTo), base, [Iter([]), MkVal(b)], env, h);
    assert Reverse([Iter([]), MkVal(b)]) == [MkVal(b), Iter([])];
  }

  // ===== What happens when retyping changes where a script goes: a call that the script did not make before is made,
  // although it stands in the part that has been committed.

  // ---------- the script ----------

  const X: VariableId := Global("x")
  const Y: VariableId := Global("y")

  function Num(n: real, k: NumberKind): Expr { Expr(Atom(Number(n)), Plain(TNum(k)), NO_NOTE) }

  /** `let x = 1` */
  function One(k: NumberKind): Expr { Mk(Let(X, Num(1.0, k))) }

  function Quotient(k: NumberKind): Expr { Expr(Binary(Math(Divide), MkVar(X), Num(2.0, k)), Plain(TNum(k)), NO_NOTE) }

  function Test(k: NumberKind): Expr { Mk(Binary(Compare(GreaterThan), Quotient(k), Num(0.0, S32))) }

  const CALL: Expr := Expr(Call(Function("f", ResourceReceiver(None, None, ""), Some(0)), []), Plain(TBool), NO_NOTE)

  /** `if x / 2 > 0 then f() else false` */
  function Half(k: NumberKind): Expr { Mk(Cond(Test(k), CALL, MkBool(false))) }

  /** `let y: f64 = x` */
  const COPY: Expr := Mk(Let(Y, MkVar(X)))

  function Lit(n: real, k: NumberKind): ValueAndType { VT(VNum(k, n), WNum(k)) }

  const INVOKE: IR := InvokeFunction(0, WitResource(Global(STATIC_WIT_RESOURCE)), 0, Some(WBool))

  function OneCode(k: NumberKind): seq<IR> { [PushLit(Lit(1.0, k)), AssignVar(X)] }

  function HalfCode(k: NumberKind): seq<IR> {
    hide *;
    [PushLit(Lit(0.0, S32)), PushLit(Lit(2.0, k)), LoadVar(X), MathIR(Divide, WNum(k)), CompareIR(GreaterThan),
     JumpIfFalse(1), CreateFunctionName("f"), INVOKE, Jump(2), Label(1), PushLit(BoolVT(false)), Label(2)]
  }

  function TwoCode(k: NumberKind): seq<IR> { OneCode(k) + HalfCode(k) }

  function ThreeCode(): seq<IR> { TwoCode(F64) + [LoadVar(X), AssignVar(Y)] }

  predicate Usual(k: NumberKind) { k == S32 || k == F64 }

  lemma GenNum(n: real, k: NumberKind, l: nat)
    requires Usual(k) && (n == 0.0 || n == 1.0 || n == 2.0)
    ensures Gen(Num(n, k), l) == Ok(Code([PushLit(Lit(n, k))], l))
  {
    hide Gen, Weight, MatchPlan;
    GenUnfold(Num(n, k), l);
    assert NumberAs(n, k) == Some(Lit(n, k)) by {
      assert n.Floor as real == n;
    }
    assert PlanOf(Num(n, k), l) == Operands([], [PushLit(Lit(n, k))]);
    GenNone(Num(n, k), [PushLit(Lit(n, k))], l);
  }

  lemma GenNone(e: Expr, tail: seq<IR>, n: nat)
    requires PlanOf(e, n) == Operands([], tail)
    ensures Gen(e, n) == Ok(Code(tail, n))
  {
    hide Gen, Weight, PlanOf, GenChunks;
    GenUnfold(e, n);
    assert Plainly([]) == [];
    ByteCode.EmptyChunks(n);
    assert [] + tail == tail;
  }

  lemma GenX(n: nat)
    ensures Gen(MkVar(X), n) == Ok(Code([LoadVar(X)], n))
  {
    hide Gen, Weight, MatchPlan, CallPlan, WitOf;
    assert PlanOf(MkVar(X), n) == Operands([], [LoadVar(X)]);
    GenNone(MkVar(X), [LoadVar(X)], n);
  }

  lemma {:induction false} GenLet(v: VariableId, b: Expr, code: seq<IR>, n: nat)
    requires Gen(b, n) == Ok(Code(code, n))
    ensures Gen(Mk(Let(v, b)), n) == Ok(Code(code + [AssignVar(v)], n))
  {
    hide Gen, Weight, GenChunks, PlanOf;
    Simulation.LetCode(Mk(Let(v, b)), n);
  }

  lemma {:induction false} GenTwo(e: Expr, l: Expr, r: Expr, n: nat, a: seq<IR>, b: seq<IR>, ir: IR)
    requires PlanOf(e, n) == Operands([r, l], [ir]) && Gen(l, n) == Ok(Code(a, n)) && Gen(r, n) == Ok(Code(b, n))
    ensures Gen(e, n) == Ok(Code(b + a + [ir], n))
  {
    hide Gen, Weight, GenChunks, PlanOf;
    GenUnfold(e, n);
    assert [r, l] == [r] + [l];
    ByteCode.LastChunk([r], l, n);
    assert Plainly([r]) == [Chunk(r, [])];
    Simulation.OneChunk(r, n);
  }

  lemma GenTest(k: NumberKind, n: nat)
    requires hide GenChunks, PlanOf, Gen, Test; Usual(k)
    ensures Gen(Test(k), n) == Ok(Code(HalfCode(k)[..5], n))
  {
    hide Gen, Weight, GenChunks, MatchPlan;
    GenNum(0.0, S32, n);
    GenNum(2.0, k, n);
    GenX(n);
    assert WitOf(Plain(TNum(k))) == Some(WNum(k));
    GenTwo(Quotient(k), MkVar(X), Num(2.0, k), n, [LoadVar(X)], [PushLit(Lit(2.0, k))], MathIR(Divide, WNum(k)));
    var q := [PushLit(Lit(2.0, k))] + [LoadVar(X)] + [MathIR(Divide, WNum(k))];
    GenTwo(Test(k), Quotient(k), Num(0.0, S32), n, q, [PushLit(Lit(0.0, S32))], CompareIR(GreaterThan));
    assert [PushLit(Lit(0.0, S32))] + q + [CompareIR(GreaterThan)] == HalfCode(k)[..5];
  }

  lemma GenCall(n: nat)
    ensures Gen(CALL, n) == Ok(Code([CreateFunctionName("f"), INVOKE], n))
  {
    hide Gen, Weight, MatchPlan;
    assert WitOf(Plain(TBool)) == Some(WBool);
    assert Reverse<Expr>([]) == [];
    assert PlanOf(CALL, n) == Operands([], [CreateFunctionName("f"), INVOKE]);
    GenNone(CALL, [CreateFunctionName("f"), INVOKE], n);
  }

  lemma GenHalf(k: NumberKind)
    requires hide *; Usual(k)
    ensures Gen(Half(k), 0) == Ok(Code(HalfCode(k), 2))
  {
    hide Gen, Weight, GenChunks, PlanOf, MkBool;
    GenUnfold(Half(k), 0);
    Simulation.CondPlan(Half(k), 0);
    GenTest(k, 2);
    GenCall(2);
    GenBool(false, 2);
    var cs := CondChunks(Test(k), CALL, MkBool(false), 0);
    assert cs == [cs[0], cs[1], cs[2]];
    GenThree(cs[0], cs[1], cs[2], 2, HalfCode(k)[..5], [CreateFunctionName("f"), INVOKE], [PushLit(BoolVT(false))]);
    assert HalfCode(k) == (HalfCode(k)[..5] + cs[0].tail) + ([CreateFunctionName("f"), INVOKE] + cs[1].tail)
                          + ([PushLit(BoolVT(false))] + cs[2].tail) + [];
  }

  lemma GenOne(k: NumberKind, n: nat)
    requires Usual(k)
    ensures GenChunks(Plainly([One(k)]), n) == Ok(Code(OneCode(k), n))
  {
    hide Gen, GenChunks, Weight, Num, Plainly, Lit, Mk;
    GenNum(1.0, k, n);
    GenLet(X, Num(1.0, k), [PushLit(Lit(1.0, k))], n);
    assert Plainly([One(k)]) == [Chunk(One(k), [])];
    Simulation.OneChunk(One(k), n);
    assert [PushLit(Lit(1.0, k))] + [AssignVar(X)] == OneCode(k);
  }

  lemma GenScripts(k: NumberKind)
    requires hide *; Usual(k)
    ensures GenChunks(Plainly([One(k), Half(k)]), 0) == Ok(Code(TwoCode(k), 2))
    ensures GenChunks(Plainly([One(F64), Half(F64), COPY]), 0) == Ok(Code(ThreeCode(), 2))
  {
    hide Gen, GenChunks, Weight, OneCode, HalfCode, Half, Plainly, One, MkVar;
    GenHalf(k);
    GenOne(k, 2);
    assert [One(k)] + [Half(k)] == [One(k), Half(k)];
    ByteCode.LastChunk([One(k)], Half(k), 0);
    GenHalf(F64);
    GenOne(F64, 2);
    assert [One(F64)] + [Half(F64)] == [One(F64), Half(F64)];
    ByteCode.LastChunk([One(F64)], Half(F64), 0);
    GenX(0);
    GenLet(Y, MkVar(X), [LoadVar(X)], 0);
    assert [One(F64), Half(F64)] + [COPY] == [One(F64), Half(F64), COPY];
    ByteCode.LastChunk([One(F64), Half(F64)], COPY, 0);
    assert [LoadVar(X)] + [AssignVar(Y)] == [LoadVar(X), AssignVar(Y)];
  }

  lemma SameHalves()
    ensures BareAll([One(S32), Half(S32)]) == BareAll([One(F64), Half(F64)])
  {
    hide BareFields, BareArms, BareType, BareAll;
    OneBare(One(S32), Half(S32));
    OneBare(One(F64), Half(F64));
    assert Bare(One(S32)) == Bare(One(F64)) by {
      assert Bare(Num(1.0, S32)) == Bare(Num(1.0, F64));
    }
    assert Bare(Quotient(S32)) == Bare(Quotient(F64));
    assert Bare(Test(S32)) == Bare(Test(F64));
    BareCond(Test(S32), CALL, MkBool(false));
    BareCond(Test(F64), CALL, MkBool(false));
  }

  // ---------- steps ----------

  lemma {:induction false} PushStep<H>(w: World<H>, prog: seq<IR>, pc: nat, st: State<H>, v: StackValue)
    requires hide *; pc < |prog| && Arity(prog[pc]) == Some(0) && Operation(w.text, prog[pc], []) == Some(v)
    ensures Step(w, prog, Run(pc, st)) == Run(pc + 1, st.(stack := st.stack + [v]))
  {
    hide Operation, FindLabel, Invoke, GenerateNameFor;
    assert TopN(st.stack, 0) == [] && st.stack[..|st.stack|] == st.stack;
  }

  lemma {:induction false} TwoStep<H>(w: World<H>, prog: seq<IR>, pc: nat, st: State<H>, x: StackValue, y: StackValue,
                                      v: StackValue)
    requires hide *; pc < |prog| && Arity(prog[pc]) == Some(2) && Operation(w.text, prog[pc], [x, y]) == Some(v)
    ensures Step(w, prog, Run(pc, st.(stack := st.stack + [y, x]))) == Run(pc + 1, st.(stack := st.stack + [v]))
  {
    hide Operation, FindLabel;
    var full := st.stack + [y, x];
    assert TopN(full, 2) == [x, y] && full[..|full| - 2] == st.stack;
  }

  lemma {:induction false} BindStep<H>(w: World<H>, prog: seq<IR>, pc: nat, st: State<H>, v: StackValue)
    requires hide *; pc < |prog| && prog[pc].AssignVar?
    ensures Step(w, prog, Run(pc, st.(stack := st.stack + [v]))) == Run(pc + 1, st.(env := st.env[prog[pc].variable := v]))
  {
    hide Operation, FindLabel, Invoke, GenerateNameFor;
    assert (st.stack + [v])[..|st.stack|] == st.stack;
  }

  lemma {:induction false} LoadStep<H>(w: World<H>, prog: seq<IR>, pc: nat, st: State<H>)
    requires hide *; pc < |prog| && prog[pc] == LoadVar(X) && X in st.env && st.env[X].Val?
    ensures Step(w, prog, Run(pc, st)) == Run(pc + 1, st.(stack := st.stack + [st.env[X]]))
  {
    hide Operation, FindLabel, Gen, GenChunks, Machine.Compute, Values.Compute, ChunksWeight, Weight, Invoke;
  }

  lemma {:induction false} GoStep<H>(w: World<H>, prog: seq<IR>, pc: nat, st: State<H>, i: nat)
    requires hide *; pc < |prog| && prog[pc].Jump? && FindLabel(prog, prog[pc].target) == Some(i)
    ensures Step(w, prog, Run(pc, st)) == Run(i + 1, st)
  {
    hide Operation, FindLabel, Invoke;
  }

  lemma {:induction false} TestStep<H>(w: World<H>, prog: seq<IR>, pc: nat, st: State<H>, b: bool, i: nat)
    requires hide *; pc < |prog| && prog[pc].JumpIfFalse? && (!b ==> FindLabel(prog, prog[pc].target) == Some(i))
    ensures Step(w, prog, Run(pc, st.(stack := st.stack + [MkVal(b)]))) == if b then Run(pc + 1, st) else Run(i + 1, st)
  {
    hide Operation, FindLabel, Invoke;
    assert (st.stack + [MkVal(b)])[..|st.stack|] == st.stack;
  }

  lemma {:induction false} PassStep<H>(w: World<H>, prog: seq<IR>, pc: nat, st: State<H>)
    requires hide *; pc < |prog| && prog[pc].Label?
    ensures Step(w, prog, Run(pc, st)) == Run(pc + 1, st)
  {
    hide Operation, FindLabel, Invoke, GenerateNameFor;
  }

  /** One step more. */
  lemma {:induction false} OneMore<H>(w: World<H>, prog: seq<IR>, c: Config<H>, n: nat, b: Config<H>)
    requires hide *; RunN(w, prog, c, n) == b
    ensures RunN(w, prog, c, n + 1) == Step(w, prog, b)
  {
    hide Step;
    RunNPlus(w, prog, c, n, 1);
    assert RunN(w, prog, b, 1) == RunN(w, prog, Step(w, prog, b), 0);
  }

  // ---------- runs ----------

  function Env1(k: NumberKind): Env { map[X := Val(Lit(1.0, k))] }

  function Begin<H>(h: H): Config<H> { Run(0, State([], map[], h)) }

  lemma {:induction false} OneRun<H>(w: World<H>, k: NumberKind, prog: seq<IR>, h: H)
    requires hide *; OneCode(k) <= prog
    ensures RunN(w, prog, Begin(h), 2) == Run(2, State([], Env1(k), h))
  {
    hide Step, RunN, FindLabel, Reach, MathValues, CompareValues, Iterated, TagOf, SelectItem;
    assert prog[0] == OneCode(k)[0] && prog[1] == OneCode(k)[1];
    var v := Val(Lit(1.0, k));
    RunNZero(w, prog, Begin(h));
    PushStep(w, prog, 0, State([], map[], h), v);
    OneMore(w, prog, Begin(h), 0, Begin(h));
    BindStep(w, prog, 1, State([], map[], h), v);
    OneMore(w, prog, Begin(h), 1, Run(1, State([] + [v], map[], h)));
    assert map[][X := v] == Env1(k);
  }

  function Halved(k: NumberKind): ValueAndType { Lit(if k == F64 then 0.5 else 0.0, k) }

  lemma Halves(k: NumberKind)
    requires Usual(k)
    ensures MathValues(Divide, WNum(k), Val(Lit(1.0, k)), Val(Lit(2.0, k))) == Some(Val(Halved(k)))
    ensures CompareValues(GreaterThan, Val(Halved(k)), Val(Lit(0.0, S32))) == Some(MkVal(k == F64))
  {
    if k == S32 {
      assert 1.0.Floor == 1 && 2.0.Floor == 2;
      assert TruncDiv(1, 2) == 0;
    } else {
      assert 1.0 / 2.0 == 0.5;
    }
  }

  lemma {:induction false} Operands2<H>(w: World<H>, k: NumberKind, prog: seq<IR>, h: H)
    requires hide *; TwoCode(k) <= prog
    ensures RunN(w, prog, Begin(h), 4) == Run(4, State([Val(Lit(0.0, S32)), Val(Lit(2.0, k))], Env1(k), h))
  {
    hide Step, RunN, FindLabel, Reach, Gen, Values.Compute, Begin, Env1;
    assert OneCode(k) <= prog && forall i :: 0 <= i < 5 ==> prog[2 + i] == HalfCode(k)[i];
    OneRun(w, k, prog, h);
    var a, b := Val(Lit(0.0, S32)), Val(Lit(2.0, k));
    PushStep(w, prog, 2, State([], Env1(k), h), a);
    assert [] + [a] == [a] && [a] + [b] == [a, b];
    OneMore(w, prog, Begin(h), 2, Run(2, State([], Env1(k), h)));
    PushStep(w, prog, 3, State([a], Env1(k), h), b);
    OneMore(w, prog, Begin(h), 3, Run(3, State([a], Env1(k), h)));
  }

  lemma {:induction false} Operands3<H>(w: World<H>, k: NumberKind, prog: seq<IR>, h: H)
    requires hide *; TwoCode(k) <= prog
    ensures RunN(w, prog, Begin(h), 5) == Run(5, State([Val(Lit(0.0, S32)), Val(Lit(2.0, k)), Val(Lit(1.0, k))], Env1(k), h))
  {
    hide Step, RunN, FindLabel, Reach, Gen, Values.Compute, Begin;
    Operands2(w, k, prog, h);
    assert prog[4] == HalfCode(k)[2];
    var a, b := Val(Lit(0.0, S32)), Val(Lit(2.0, k));
    LoadStep(w, prog, 4, State([a, b], Env1(k), h));
    OneMore(w, prog, Begin(h), 4, Run(4, State([a, b], Env1(k), h)));
  }

  lemma {:induction false} Tested<H>(w: World<H>, k: NumberKind, prog: seq<IR>, h: H)
    requires hide *; Usual(k) && TwoCode(k) <= prog
    ensures RunN(w, prog, Begin(h), 7) == Run(7, State([MkVal(k == F64)], Env1(k), h))
  {
    hide Step, RunN, FindLabel, MathValues, CompareValues, Begin;
    assert prog[5] == HalfCode(k)[3] && prog[6] == HalfCode(k)[4];
    Operands3(w, k, prog, h);
    Halves(k);
    var a, b, x := Val(Lit(0.0, S32)), Val(Lit(2.0, k)), Val(Lit(1.0, k));
    TwoStep(w, prog, 5, State([a], Env1(k), h), x, b, Val(Halved(k)));
    assert [a] + [b, x] == [a, b, x] && [a] + [Val(Halved(k))] == [] + [a, Val(Halved(k))];
    OneMore(w, prog, Begin(h), 5, Run(5, State([a, b, x], Env1(k), h)));
    TwoStep(w, prog, 6, State([], Env1(k), h), Val(Halved(k)), a, MkVal(k == F64));
    OneMore(w, prog, Begin(h), 6, Run(6, State([] + [a, Val(Halved(k))], Env1(k), h)));
    assert [] + [MkVal(k == F64)] == [MkVal(k == F64)];
  }

  lemma FoundAt(prog: seq<IR>, l: nat, i: nat)
    requires hide *; i < |prog| && prog[i] == Label(l) && forall j :: 0 <= j < i ==> prog[j] != Label(l)
    ensures FindLabel(prog, l) == Some(i)
  {
  }

  lemma LabelsOf(k: NumberKind)
    ensures hide *; |HalfCode(k)| == 12 && HalfCode(k)[9] == Label(1) && HalfCode(k)[11] == Label(2)
    ensures forall j :: 0 <= j < 11 && j != 9 ==> !HalfCode(k)[j].Label?
  {
  }

  lemma {:induction false} TargetIn(k: NumberKind, prog: seq<IR>, l: nat, i: nat)
    requires TwoCode(k) <= prog && (l, i) in {(1, 11), (2, 13)}
    ensures FindLabel(prog, l) == Some(i)
  {
    hide HalfCode, FindLabel, Lit;
    LabelsOf(k);
    forall j | 0 <= j <= i ensures prog[j] == if j < 2 then OneCode(k)[j] else HalfCode(k)[j - 2] {
      assert prog[j] == TwoCode(k)[j];
    }
    FoundAt(prog, l, i);
  }

  lemma Targets()
    ensures hide *; FindLabel(TwoCode(S32), 1) == Some(11) && FindLabel(ThreeCode(), 2) == Some(13)
  {
    hide HalfCode, FindLabel, OneCode;
    TargetIn(S32, TwoCode(S32), 1, 11);
    TargetIn(F64, ThreeCode(), 2, 13);
  }

  /** With whole numbers the test fails and nothing is called. */
  lemma WholeRun<H>(w: World<H>, h: H)
    ensures hide *; RunN(w, TwoCode(S32), Begin(h), 10) == Run(14, State([MkVal(false)], Env1(S32), h))
  {
    hide Step, RunN, FindLabel, Reach, Begin, CompareTyped;
    var prog := TwoCode(S32);
    Tested(w, S32, prog, h);
    Targets();
    var st := State([], Env1(S32), h);
    TestStep(w, prog, 7, st, false, 11);
    assert [] + [MkVal(false)] == [MkVal(false)];
    OneMore(w, prog, Begin(h), 7, Run(7, State([MkVal(false)], Env1(S32), h)));
    PushStep(w, prog, 12, st, MkVal(false));
    OneMore(w, prog, Begin(h), 8, Run(12, st));
    PassStep(w, prog, 13, State([MkVal(false)], Env1(S32), h));
    OneMore(w, prog, Begin(h), 9, Run(13, State([MkVal(false)], Env1(S32), h)));
  }

  const ASKED: HostCall := HostCall(0, STATIC_WIT_RESOURCE, "f", [], Some(WBool))

  /** The host answers `f()` with a boolean. */
  ghost predicate Answers<S>(o: Outside<S>, host: S) { Understood(o.call(host, ASKED).1, Some(WBool)).Some? }

  /** The host of the session after the call. */
  function Called<S>(o: Outside<S>, h: ReplHost<S>): ReplHost<S> {
    hide *;
    InvokeIn(o, h, 10, CallRecord(0, STATIC_WIT_RESOURCE, "f", [], Some(WBool))).0
  }

  lemma {:induction false} CallStep<S>(o: Outside<S>, prog: seq<IR>, env: Env, h: ReplHost<S>)
    requires hide InvokeIn, NameIn, Step, Understood, StrVT;
             |prog| > 9 && prog[9] == INVOKE && 10 !in h.cache && Answers(o, h.host)
    ensures var v := AnswerValue(Understood(o.call(h.host, ASKED).1, Some(WBool)).value);
            Step(ReplWorld(o), prog, Run(9, State([Val(StrVT("f"))], env, h))) == Run(10, State([v], env, Called(o, h)))
    ensures |Called(o, h).log| == |h.log| + 1 && Called(o, h).log[|h.log|].position == 10
  {
    hide FindLabel, Understood, Exec;
    var st := State([Val(StrVT("f"))], env, h);
    InvokeAsks(ReplWorld(o), INVOKE, 10, st);
    assert TopN([], 0) == [] && st.stack[..0] == [];
    assert Asked(o.text, INVOKE, st.stack, st.env) == Some((CallRecord(0, STATIC_WIT_RESOURCE, "f", [], Some(WBool)), []));
    assert ArgsToHost([]) == Some([]);
  }

  /** With fractions the test holds and the call is made. */
  lemma FractionRun<S>(o: Outside<S>, h: ReplHost<S>)
    requires hide *; 10 !in h.cache && Answers(o, h.host)
    ensures var c := RunN(ReplWorld(o), ThreeCode(), Begin(h), 13); c.Run? && c.pc == 16 && c.st.h == Called(o, h)
  {
    hide Step, RunN, FindLabel, ReplWorld, Understood, InvokeIn, Called, Reach;
    var w, prog := ReplWorld(o), ThreeCode();
    var env := Env1(F64);
    Tested(w, F64, prog, h);
    Targets();
    TestStep(w, prog, 7, State([], env, h), true, 0);
    assert [] + [MkVal(true)] == [MkVal(true)];
    OneMore(w, prog, Begin(h), 7, Run(7, State([MkVal(true)], env, h)));
    PushStep(w, prog, 8, State([], env, h), Val(StrVT("f")));
    assert [] + [Val(StrVT("f"))] == [Val(StrVT("f"))];
    OneMore(w, prog, Begin(h), 8, Run(8, State([], env, h)));
    CallStep(o, prog, env, h);
    OneMore(w, prog, Begin(h), 9, Run(9, State([Val(StrVT("f"))], env, h)));
    var v := AnswerValue(Understood(o.call(h.host, ASKED).1, Some(WBool)).value);
    GoStep(w, prog, 10, State([v], env, Called(o, h)), 13);
    OneMore(w, prog, Begin(h), 10, Run(10, State([v], env, Called(o, h))));
    LoadStep(w, prog, 14, State([v], env, Called(o, h)));
    OneMore(w, prog, Begin(h), 11, Run(14, State([v], env, Called(o, h))));
    BindStep(w, prog, 15, State([v], env, Called(o, h)), env[X]);
    OneMore(w, prog, Begin(h), 12, Run(15, State([v] + [env[X]], env, Called(o, h))));
  }

  // ---------- three lines of a session ----------

  const LINE1: string := "let x = 1"
  const LINE2: string := "if x / 2 > 0 then f() else false"
  const LINE3: string := "let y: f64 = x"

  lemma LinesPrepared()
    ensures Prepared(LINE1) == LINE1 && Prepared(LINE2) == LINE2 && Prepared(LINE3) == LINE3
  {
  }

  /** Without the third line the numbers are whole; with it they are fractions. */
  ghost predicate Infers(front: FrontEnd) {
    && front(AsText([LINE1])) == Typed([One(S32)])
    && front(AsText([LINE1, LINE2])) == Typed([One(S32), Half(S32)])
    && front(AsText([LINE1, LINE2, LINE3])) == Typed([One(F64), Half(F64), COPY])
  }

  /** The session after lines that have called nothing. */
  function Uncalled<S>(host: S, lines: seq<string>, last: Option<nat>): Session<S> {
    Session(lines, ReplHost(map[], last, NO_NAMES, host, [], []), [])
  }

  lemma FirstLine<S>(front: FrontEnd, o: Outside<S>, host: S)
    requires hide *; Infers(front)
    ensures var (s, r) := ExecuteLine(front, o, NewSession(host), LINE1, 2); r.Result? && s == Uncalled(host, [LINE1], Some(2))
  {
    hide RunN, Gen, GenChunks, ReplWorld, AsText, One, Half, TrimLeft, TrimRight;
    LinesPrepared();
    GenOne(S32, 0);
    assert [] + [LINE1] == [LINE1];
    OneRun(ReplWorld(o), S32, OneCode(S32), StartOfRun(NewSession(host).h).st.h);
  }

  lemma SecondLine<S>(front: FrontEnd, o: Outside<S>, host: S)
    requires hide *; Infers(front)
    ensures var (s, r) := ExecuteLine(front, o, Uncalled(host, [LINE1], Some(2)), LINE2, 10);
            r.Result? && s == Uncalled(host, [LINE1, LINE2], Some(14))
  {
    hide RunN, Gen, GenChunks, ReplWorld, AsText, One, Half, TrimLeft, TrimRight;
    LinesPrepared();
    GenScripts(S32);
    assert [LINE1] + [LINE2] == [LINE1, LINE2];
    WholeRun(ReplWorld(o), StartOfRun(Uncalled(host, [LINE1], Some(2)).h).st.h);
  }

  lemma ThirdLine<S>(front: FrontEnd, o: Outside<S>, host: S)
    requires hide *; Infers(front) && Answers(o, host)
    ensures var (s, r) := ExecuteLine(front, o, Uncalled(host, [LINE1, LINE2], Some(14)), LINE3, 13);
            r.Result? && |s.h.log| == 1 && s.h.log[0].position == 10
  {
    hide RunN, Gen, GenChunks, ReplWorld, AsText, One, Half, TrimLeft, TrimRight, InvokeIn, Understood, AddToSink,
         Advance, ChunkWeight, GenerateNameFor, Invoke, Machine.Compute, Operands, SinkAsList, Values.Compute, WitOf,
         Step;
    LinesPrepared();
    GenScripts(F64);
    assert [LINE1, LINE2] + [LINE3] == [LINE1, LINE2, LINE3];
    var h := StartOfRun(Uncalled(host, [LINE1, LINE2], Some(14)).h).st.h;
    FractionRun(o, h);
    CallStep(o, ThreeCode(), map[], h);
  }

  lemma NotGuarded<S>(front: FrontEnd, host: S)
    requires hide *; Infers(front)
    ensures var s := Uncalled(host, [LINE1, LINE2], Some(14));
            StatementsRetyped(front, s.lines, LINE3) && !Guarded(front, s, LINE3)
  {
    hide Gen, GenChunks, AsText, One, Half, TrimLeft, TrimRight, BareAll;
    LinesPrepared();
    GenScripts(S32);
    SameHalves();
    assert [LINE1, LINE2] + [LINE3] == [LINE1, LINE2, LINE3];
    assert [One(F64), Half(F64), COPY][..2] == [One(F64), Half(F64)];
    assert ThreeCode()[9] == INVOKE;
  }

  /** Three lines, `let x = 1`, `if x / 2 > 0 then f() else false` and `let y: f64 = x`. The first two are run with whole
      numbers, call nothing and are committed. The third one turns x into a fraction and changes types only; its program
      makes the call of the second line, at a committed position that has no entry in the cache. */
  lemma {:induction false} RetypingCalls<S>(front: FrontEnd, o: Outside<S>, host: S)
    requires hide *; Infers(front) && Answers(o, host)
    ensures var (s1, r1) := ExecuteLine(front, o, NewSession(host), LINE1, 2);
            var (s2, r2) := ExecuteLine(front, o, s1, LINE2, 10);
            var (s3, r3) := ExecuteLine(front, o, s2, LINE3, 13);
            && r1.Result? && r2.Result? && s2.h.log == []
            && StatementsRetyped(front, s2.lines, LINE3) && !Guarded(front, s2, LINE3)
            && r3.Result? && |s3.h.log| == 1 && s3.h.log[0].position <= LastIndex(s2.h)
  {
    hide ExecuteLine, Infers, Answers, StatementsRetyped, Guarded;
    FirstLine(front, o, host);
    SecondLine(front, o, host);
    ThirdLine(front, o, host);
    NotGuarded(front, host);
  }
}
