/** What pieces of code do inside a larger program: straight code, operators, and the loops of comprehensions and reductions. */
module Running {
  import opened Syntax
  import opened Values
  import opened Machine
  import opened Evaluation
  import opened ByteCode

  // ===== Reasoning about runs of code that sits inside a larger program.

  /** The host does not look at the position of the calling instruction. */
  ghost predicate PositionBlind<H(!new)>(w: World<H>) {
    forall h: H, p: nat, q: nat, c: CallRecord :: w.invoke(h, p, c) == w.invoke(h, q, c)
  }

  ghost predicate At(prog: seq<IR>, pc: nat, code: seq<IR>) {
    pc + |code| <= |prog| && forall i :: 0 <= i < |code| ==> prog[pc + i] == code[i]
  }

  lemma {:induction false} AtSplit(prog: seq<IR>, pc: nat, a: seq<IR>, b: seq<IR>)
    requires hide *; At(prog, pc, a + b)
    ensures At(prog, pc, a) && At(prog, pc + |a|, b)
  {
    forall i | 0 <= i < |a| ensures prog[pc + i] == a[i] {
      assert (a + b)[i] == a[i];
    }
    forall i | 0 <= i < |b| ensures prog[pc + |a| + i] == b[i] {
      assert (a + b)[|a| + i] == b[i];
    }
  }

  lemma OnlyLabel(prog: seq<IR>, i: nat)
    requires hide *; ByteCode.Unique(prog) && i < |prog| && prog[i].Label?
    ensures FindLabel(prog, prog[i].target) == Some(i)
  {
  }

  // ---------- single steps ----------

  lemma StepNext<H(!new)>(w: World<H>, prog: seq<IR>, pc: nat, st: State<H>)
    requires hide *; pc < |prog| && Exec(w, prog[pc], pc + 1, st).Next?
    ensures Reach(w, prog, Run(pc, st), Run(pc + 1, Exec(w, prog[pc], pc + 1, st).st))
  {
    hide Exec;
    ReachStep(w, prog, Run(pc, st));
  }

  lemma StepStop<H(!new)>(w: World<H>, prog: seq<IR>, pc: nat, st: State<H>)
    requires hide *; pc < |prog| && Exec(w, prog[pc], pc + 1, st).Stop?
    ensures Reach(w, prog, Run(pc, st), Failed(Exec(w, prog[pc], pc + 1, st).h))
  {
    hide Exec;
    ReachStep(w, prog, Run(pc, st));
  }

  /** A taken jump goes behind its label, which is the only one with its index. */
  lemma StepGoto<H(!new)>(w: World<H>, prog: seq<IR>, pc: nat, st: State<H>, i: nat)
    requires hide *; pc < |prog| && i < |prog| && ByteCode.Unique(prog)
    requires Exec(w, prog[pc], pc + 1, st).Goto? && prog[i] == Label(Exec(w, prog[pc], pc + 1, st).target)
    ensures Reach(w, prog, Run(pc, st), Run(i + 1, Exec(w, prog[pc], pc + 1, st).st))
  {
    hide Exec;
    OnlyLabel(prog, i);
    ReachStep(w, prog, Run(pc, st));
  }

  // ---------- straight code ----------

  /** The effect of instructions without jumps. */
  function ExecAll<H>(w: World<H>, irs: seq<IR>, st: State<H>): Effect<H> {
    hide *;
    if irs == [] then Next(st) else
    match Exec(w, irs[0], 0, st)
    case Next(s) => ExecAll(w, irs[1..], s)
    case Goto(_, s) => Stop(s.h)
    case Stop(h) => Stop(h)
  }

  /** What straight code does when it stands at some place of a program. */
  ghost predicate Does<H(!new)>(w: World<H>, prog: seq<IR>, pc: nat, len: nat, st: State<H>, r: Effect<H>) {
    hide *;
    && (r.Next? ==> Reach(w, prog, Run(pc, st), Run(pc + len, r.st)))
    && (r.Stop? ==> Reach(w, prog, Run(pc, st), Failed(r.h)))
  }

  lemma ExecBlind<H(!new)>(w: World<H>, ir: IR, p: nat, q: nat, st: State<H>)
    requires PositionBlind(w)
    ensures Exec(w, ir, p, st) == Exec(w, ir, q, st)
  {
    hide Machine.Compute, CheckEmpty, Advance, AddToSink, SinkAsList, GenerateNameFor, AllVals;
    if ir.InvokeFunction? {
      hide Resolve;
    }
  }

  lemma {:induction false} OnlyJumpsGo<H>(w: World<H>, ir: IR, p: nat, st: State<H>)
    requires !ByteCode.IsJump(ir)
    ensures !Exec(w, ir, p, st).Goto?
  {
    hide Operation, Arity, Resolve, Values.Compute, AsInstanceVariable, TopSink;
  }

  lemma {:induction false} StraightRun<H(!new)>(w: World<H>, prog: seq<IR>, pc: nat, irs: seq<IR>, st: State<H>)
    requires hide *; PositionBlind(w) && At(prog, pc, irs) && ByteCode.LabelFree(irs)
    ensures Does(w, prog, pc, |irs|, st, ExecAll(w, irs, st))
    decreases |irs|
  {
    hide Exec, PositionBlind, RunN;
    if irs == [] {
      ReachRefl(w, prog, Run(pc, st));
    } else {
      assert irs[0] in irs && prog[pc] == irs[0];
      ExecBlind(w, irs[0], pc + 1, 0, st);
      OnlyJumpsGo(w, irs[0], 0, st);
      match Exec(w, irs[0], 0, st)
      case Stop(h) => StepStop(w, prog, pc, st);
      case Next(s) =>
        StepNext(w, prog, pc, st);
        assert [irs[0]] + irs[1..] == irs;
        AtSplit(prog, pc, [irs[0]], irs[1..]);
        StraightRun(w, prog, pc + 1, irs[1..], s);
        var r := ExecAll(w, irs[1..], s);
        if r.Next? {
          ReachTrans(w, prog, Run(pc, st), Run(pc + 1, s), Run(pc + |irs|, r.st));
        } else if r.Stop? {
          ReachTrans(w, prog, Run(pc, st), Run(pc + 1, s), Failed(r.h));
        }
    }
  }

  lemma ExecAllAppend<H>(w: World<H>, a: seq<IR>, b: seq<IR>, st: State<H>)
    ensures ExecAll(w, a + b, st) == match ExecAll(w, a, st) case Next(s) => ExecAll(w, b, s) case r => r
  {
    hide Exec;
    if a == [] {
      assert a + b == b;
    } else {
      assert (a + b)[1..] == a[1..] + b;
    }
  }

  // ---------- outcomes on the stack ----------

  ghost predicate NoSinks(vs: seq<StackValue>) {
    forall v :: v in vs ==> !v.Sink?
  }

  /** Values that can be bound to variables. */
  predicate Plainish(v: StackValue) { v.Val? || v.Unit? }

  function Opt(v: Option<StackValue>): seq<StackValue> { if v.Some? then [v.value] else [] }

  ghost predicate Fits(v: Option<StackValue>, junk: seq<StackValue>, sh: Shape) {
    && v.Some? == sh.value
    && (v.Some? ==> Plainish(v.value))
    && (v.Some? && sh.solid ==> v.value.Val?)
    && NoSinks(junk)
    && (!sh.junk ==> junk == [])
  }

  /** From a configuration the machine arrives behind the code with the result on top of what was there before, or
      stops with an error, just as the meaning says. */
  ghost predicate Leads<H(!new)>(w: World<H>, prog: seq<IR>, a: Config<H>, base: seq<StackValue>, to: nat,
                                 out: Outcome<H>, sh: Shape) {
    match out
    case Fault(h) => Reach(w, prog, a, Failed(h))
    case Done(v, env, h) =>
      exists junk :: Fits(v, junk, sh) && Reach(w, prog, a, Run(to, State(base + junk + Opt(v), env, h)))
  }

  lemma LeadsFrom<H(!new)>(w: World<H>, prog: seq<IR>, a: Config<H>, b: Config<H>, base: seq<StackValue>, to: nat,
                           out: Outcome<H>, sh: Shape)
    requires Reach(w, prog, a, b) && Leads(w, prog, b, base, to, out, sh)
    ensures Leads(w, prog, a, base, to, out, sh)
  {
    hide RunN;
    match out
    case Fault(h) => ReachTrans(w, prog, a, b, Failed(h));
    case Done(v, env, h) =>
      var junk :| Fits(v, junk, sh) && Reach(w, prog, b, Run(to, State(base + junk + Opt(v), env, h)));
      ReachTrans(w, prog, a, b, Run(to, State(base + junk + Opt(v), env, h)));
  }

  /** Going on behind the code. */
  lemma LeadsTo<H(!new)>(w: World<H>, prog: seq<IR>, a: Config<H>, base: seq<StackValue>, to: nat, next: nat,
                         out: Outcome<H>, sh: Shape)
    requires hide *; Leads(w, prog, a, base, to, out, sh)
    requires out.Done? ==> forall junk :: Fits(out.v, junk, sh) ==>
      Reach(w, prog, Run(to, State(base + junk + Opt(out.v), out.env, out.h)),
            Run(next, State(base + junk + Opt(out.v), out.env, out.h)))
    ensures Leads(w, prog, a, base, next, out, sh)
  {
    hide RunN;
    match out
    case Fault(h) =>
    case Done(v, env, h) =>
      var junk :| Fits(v, junk, sh) && Reach(w, prog, a, Run(to, State(base + junk + Opt(v), env, h)));
      ReachTrans(w, prog, a, Run(to, State(base + junk + Opt(v), env, h)), Run(next, State(base + junk + Opt(v), env, h)));
  }

  /** What lies below the result may be counted as old or as left behind. */
  lemma LeadsOver<H(!new)>(w: World<H>, prog: seq<IR>, a: Config<H>, base: seq<StackValue>, under: seq<StackValue>, to: nat,
                           out: Outcome<H>, sh: Shape, wide: Shape)
    requires Leads(w, prog, a, base + under, to, out, sh)
    requires NoSinks(under) && wide.value == sh.value && (wide.solid ==> sh.solid)
    requires !wide.junk ==> under == [] && !sh.junk
    ensures Leads(w, prog, a, base, to, out, wide)
  {
    hide RunN;
    match out
    case Fault(h) =>
    case Done(v, env, h) =>
      var junk :| Fits(v, junk, sh) && Reach(w, prog, a, Run(to, State((base + under) + junk + Opt(v), env, h)));
      assert (base + under) + junk + Opt(v) == base + (under + junk) + Opt(v);
      assert Fits(v, under + junk, wide);
  }

  // ===== The code of expressions whose operands are all evaluated: operands, then instructions that combine them.

  /** All instructions of a plan that do not belong to sub-expressions. */
  function TailOf(p: Plan): seq<IR> { if p.Parts? then ByteCode.Tails(p.chunks) + p.tail else [] }

  // ---------- the shape of the code ----------

  lemma {:induction false} TailMoves(front: seq<Expr>, x: Expr, t: seq<IR>, n: nat)
    ensures GenChunks(Plainly(front) + [Chunk(x, t)], n) == Then(GenChunks(Plainly(front + [x]), n), t)
    ensures ByteCode.Tails(Plainly(front) + [Chunk(x, t)]) == t
  {
    hide Gen, Weight;
    assert (Plainly(front) + [Chunk(x, t)])[..|front|] == Plainly(front);
    assert Plainly(front + [x])[..|front|] == Plainly(front);
    ByteCode.TailsOfPlainly(front);
    if Gen(x, n).Ok? {
      var g := Gen(x, n).value;
      assert g.code + [] == g.code;
      if GenChunks(Plainly(front), g.last).Ok? {
        var f := GenChunks(Plainly(front), g.last).value;
        assert (f.code + g.code) + t == f.code + (g.code + t);
      }
    }
  }

  /** Plans of the two shapes that occur: only plain operands, or a last operand with instructions behind it. */
  lemma PlainPlan(p: Plan, es: seq<Expr>, n: nat)
    requires hide *; p.Parts? && p.labels == 0 && p.chunks == Plainly(es)
    ensures Generate(p, n) == Then(GenChunks(Plainly(es), n), TailOf(p))
  {
    hide Gen, ChunksWeight;
    ByteCode.TailsOfPlainly(es);
    assert TailOf(p) == p.tail;
  }

  lemma {:induction false} TailedPlan(p: Plan, front: seq<Expr>, x: Expr, t: seq<IR>, n: nat)
    requires hide *; p.Parts? && p.labels == 0 && p.chunks == Plainly(front) + [Chunk(x, t)]
    ensures Generate(p, n) == Then(GenChunks(Plainly(front + [x]), n), TailOf(p))
  {
    hide GenChunks, ByteCode.Tails, Gen, ChunksWeight;
    TailMoves(front, x, t, n);
    var g := GenChunks(Plainly(front + [x]), n);
    assert TailOf(p) == t + p.tail;
    assert Generate(p, n) == Then(GenChunks(p.chunks, n), p.tail);
    if g.Ok? {
      assert (g.value.code + t) + p.tail == g.value.code + (t + p.tail);
    }
  }

  lemma RangeCode(e: Expr, n: nat)
    requires e.kind.Range? && PlanOf(e, n).Parts?
    ensures Generate(PlanOf(e, n), n) == Then(GenChunks(Plainly(Ops(e)), n), TailOf(PlanOf(e, n)))
  {
    hide Gen, GenChunks, WitOf, MatchPlan, LeafPlan, CallPlan, SelectPlan, RangePlan;
    var p := PlanOf(e, n);
    var flag := [PushLit(BoolVT(e.kind.inclusive))];
    if e.kind.to.Some? {
      assert p.chunks == Plainly([e.kind.from]) + [Chunk(e.kind.to.value, flag)];
      TailedPlan(p, [e.kind.from], e.kind.to.value, flag, n);
      assert [e.kind.from] + [e.kind.to.value] == Ops(e);
    } else {
      assert p.chunks == Plainly([]) + [Chunk(e.kind.from, flag)];
      TailedPlan(p, [], e.kind.from, flag, n);
      assert [] + [e.kind.from] == Ops(e);
    }
  }

  lemma UnaryCode(e: Expr, n: nat)
    requires e.kind.Unary? && PlanOf(e, n).Parts?
    ensures Generate(PlanOf(e, n), n) == Then(GenChunks(Plainly(Ops(e)), n), TailOf(PlanOf(e, n)))
  {
    hide Gen, GenChunks, WitOf, MatchPlan, LeafPlan, CallPlan;
    var p := PlanOf(e, n);
    if e.kind.unary.GetTag? {
      assert p.chunks == Plainly([]) + [Chunk(e.kind.arg, [GetTagIR])];
      TailedPlan(p, [], e.kind.arg, [GetTagIR], n);
      assert [] + [e.kind.arg] == [e.kind.arg];
    } else {
      assert p.chunks == Plainly([e.kind.arg]);
      PlainPlan(p, [e.kind.arg], n);
    }
  }

  lemma {:induction false} StrictPlan(e: Expr, n: nat)
    requires hide *; IsStrict(e)
    ensures !PlanOf(e, n).Rewrite?
    ensures PlanOf(e, n) == PlanOf(e, 0)
    ensures PlanOf(e, n).Parts? ==> PlanOf(e, n).labels == 0
    ensures PlanOf(e, n).Parts? && !e.kind.Unary? && !e.kind.Range? ==> PlanOf(e, n).chunks == Plainly(Ops(e))
  {
    hide LeafPlan, UnaryPlan, BinaryPlan, RecordPlan, ListPlan, CallPlan, RangePlan, Weight, Reverse, Exprs, Plainly,
         MatchPlan, WitOf;
    assert Plainly([]) == [];
  }

  /** Operands in the order of evaluation, then straight instructions. */
  lemma {:induction false} StrictCode(e: Expr, n: nat)
    requires hide *; IsStrict(e) && Gen(e, n).Ok?
    ensures PlanOf(e, 0).Parts?
    ensures GenChunks(Plainly(Ops(e)), n).Ok?
    ensures Gen(e, n).value.code == GenChunks(Plainly(Ops(e)), n).value.code + TailOf(PlanOf(e, 0))
    ensures ByteCode.LabelFree(TailOf(PlanOf(e, 0)))
  {
    hide PlanOf, Ops, IsStrict;
    GenUnfold(e, n);
    StrictPlan(e, n);
    hide Gen, GenChunks, PlanOf, Weight;
    var p := PlanOf(e, n);
    ByteCode.PlanGood(e, n);
    ByteCode.NoLabels(p, n);
    if e.kind.Unary? {
      UnaryCode(e, n);
    } else if e.kind.Range? {
      RangeCode(e, n);
    } else {
      PlainPlan(p, Ops(e), n);
    }
  }

  // ---------- what the instructions do ----------

  /** A computed value replaces the operands; no value stops the machine. */
  function Afterwards<H>(base: seq<StackValue>, env: Env, a: Answer<H>): Effect<H> {
    match a
    case Answer(v, h) => Next(State(base + [v], env, h))
    case NoAnswer(h) => Stop(h)
  }

  lemma TopNAt(base: seq<StackValue>, vs: seq<StackValue>, i: nat)
    requires i < |vs|
    ensures TopN(base + vs, |vs|)[i] == vs[|vs| - 1 - i]
  {
  }

  lemma ReverseAt<T>(vs: seq<T>, i: nat)
    requires i < |vs|
    ensures Reverse(vs)[i] == vs[|vs| - 1 - i]
  {
  }

  lemma SameItems<T>(a: seq<T>, b: seq<T>)
    requires |a| == |b| && forall i :: 0 <= i < |a| ==> a[i] == b[i]
    ensures a == b
  {
  }

  lemma TopNReverse(base: seq<StackValue>, vs: seq<StackValue>)
    ensures TopN(base + vs, |vs|) == Reverse(vs)
  {
    hide Reverse, TopN;
    var a, b := TopN(base + vs, |vs|), Reverse(vs);
    forall i | 0 <= i < |a| ensures a[i] == b[i] {
      TopNAt(base, vs, i);
      ReverseAt(vs, i);
    }
    SameItems(a, b);
  }

  lemma OneStep<H>(w: World<H>, ir: IR, st: State<H>)
    requires hide *; !ByteCode.IsJump(ir)
    ensures ExecAll(w, [ir], st) == Exec(w, ir, 0, st)
  {
    hide Exec;
    OnlyJumpsGo(w, ir, 0, st);
  }

  lemma ExecComputes<H>(w: World<H>, ir: IR, st: State<H>)
    requires hide *; Arity(ir).Some?
    ensures Exec(w, ir, 0, st) == Machine.Compute(w, ir, st)
  {
    hide Machine.Compute, Invoke, GenerateNameFor;
  }

  lemma {:induction false} ValueStep<H>(w: World<H>, ir: IR, base: seq<StackValue>, vs: seq<StackValue>, env: Env, h: H)
    requires hide *; Arity(ir) == Some(|vs|)
    ensures Exec(w, ir, 0, State(base + vs, env, h)) == Afterwards(base, env, Given(Operation(w.text, ir, Reverse(vs)), h))
  {
    hide Operation, Arity, Exec;
    ExecComputes(w, ir, State(base + vs, env, h));
    TopNReverse(base, vs);
    assert (base + vs)[..|base|] == base;
  }

  lemma {:induction false} OneValue<H>(w: World<H>, ir: IR, base: seq<StackValue>, vs: seq<StackValue>, env: Env, h: H)
    requires hide *; Arity(ir) == Some(|vs|) && !ByteCode.IsJump(ir)
    ensures ExecAll(w, [ir], State(base + vs, env, h)) == Afterwards(base, env, Given(Operation(w.text, ir, Reverse(vs)), h))
  {
    hide Operation, Exec, Arity;
    OneStep(w, ir, State(base + vs, env, h));
    ValueStep(w, ir, base, vs, env, h);
  }

  // ---------- records ----------

  function Sets(names: seq<string>): seq<IR> {
    hide *;
    if names == [] then [] else [UpdateRecord(names[0])] + Sets(names[1..])
  }

  lemma UpdatesAreSets(fs: seq<Field<Expr>>)
    ensures Updates(fs) == Sets(Names(fs))
  {
  }

  lemma {:induction false} SetsFields<H>(w: World<H>, record: StackValue, names: seq<string>, vs: seq<StackValue>,
                                         base: seq<StackValue>, env: Env, h: H)
    requires hide *; |names| == |vs|
    ensures ExecAll(w, Sets(names), State(base + Reverse(vs) + [record], env, h))
            == Afterwards(base, env, Given(RecordValue(Some(record), names, vs), h))
    decreases |names|
  {
    hide Exec, Operation, UpdateField, CasePayload, Reverse;
    var st := State(base + Reverse(vs) + [record], env, h);
    if names == [] {
      assert base + Reverse(vs) + [record] == base + [record];
    } else {
      var rest := base + Reverse(vs[1..]);
      assert base + Reverse(vs) + [record] == rest + [vs[0], record];
      ValueStep(w, UpdateRecord(names[0]), rest, [vs[0], record], env, h);
      UpdateStep(w.text, names[0], vs[0], record);
      var next := UpdateField(names[0], record, vs[0]);
      if next.Some? {
        SetsFields(w, next.value, names[1..], vs[1..], base, env, h);
      }
    }
  }

  lemma UpdateStep(text: ValueAndType -> string, name: string, v: StackValue, record: StackValue)
    ensures hide Operation, UpdateField, Reverse;
            Operation(text, UpdateRecord(name), Reverse([v, record])) == UpdateField(name, record, v)
  {
    hide MathValues, CompareValues, Arity, Iterated, TagOf, SelectItem, Concatenated, UpdateField, SelectFieldOf,
         UnwrapValue, Reverse;
    assert Reverse([v, record]) == [record, v];
  }

  /** Creating a record and setting its fields from the stack. */
  lemma {:induction false} BuildsRecord<H>(w: World<H>, t: WitType, names: seq<string>, vs: seq<StackValue>,
                                           base: seq<StackValue>, env: Env, h: H)
    requires hide *; |names| == |vs|
    ensures ExecAll(w, [CreateAndPushRecord(t)] + Sets(names), State(base + Reverse(vs), env, h))
            == Afterwards(base, env, Given(RecordValue(EmptyRecord(t), names, vs), h))
  {
    hide Exec, Operation;
    var st := State(base + Reverse(vs), env, h);
    var create := CreateAndPushRecord(t);
    ExecAllAppend(w, [create], Sets(names), st);
    assert (base + Reverse(vs)) + [] == base + Reverse(vs);
    OneValue(w, create, base + Reverse(vs), [], env, h);
    CreateStep(w.text, t);
    if EmptyRecord(t).Some? {
      SetsFields(w, EmptyRecord(t).value, names, vs, base, env, h);
    }
  }

  lemma CreateStep(text: ValueAndType -> string, t: WitType)
    ensures hide Operation, EmptyRecord; Operation(text, CreateAndPushRecord(t), Reverse([])) == EmptyRecord(t)
  {
    hide MathValues, CompareValues, Iterated, SelectItem, TagName;
  }

  // ---------- the combination of the operands, kind by kind ----------

  /** The instructions behind the operands compute the combination of their values. */
  ghost predicate TailComputes<H>(w: World<H>, e: Expr, base: seq<StackValue>, vs: seq<StackValue>, env: Env, h: H)
    requires hide *; IsStrict(e) && |vs| == |Ops(e)|
  {
    ExecAll(w, TailOf(PlanOf(e, 0)), State(base + vs, env, h)) == Afterwards(base, env, Combine(w, e, Reverse(vs), env, h))
  }

  lemma ReverseTwice<T>(s: seq<T>)
    ensures Reverse(Reverse(s)) == s
  {
  }

  lemma LeafTailIs(e: Expr) returns (ir: IR)
    requires hide *; e.kind.Atom? && PlanOf(e, 0).Parts?
    ensures TailOf(PlanOf(e, 0)) == [ir] && LeafPlan(e.kind.leaf, e.ty) == Operands([], [ir]) && !ByteCode.IsJump(ir)
  {
    hide WitOf, NumberAs, Weight, MatchPlan, RecordPlan, CallPlan, SelectPlan, BinaryPlan, UnaryPlan, ListPlan;
    var p := PlanOf(e, 0);
    assert p.chunks == [];
    ir := p.tail[0];
    assert TailOf(p) == p.tail == [ir];
  }

  lemma {:induction false} LeafTail<H>(w: World<H>, e: Expr, base: seq<StackValue>, env: Env, h: H)
    requires hide *; e.kind.Atom? && PlanOf(e, 0).Parts?
    ensures ExecAll(w, TailOf(PlanOf(e, 0)), State(base, env, h)) == Afterwards(base, env, LeafValue(w, e.kind.leaf, e.ty, env, h))
  {
    hide Exec, ExecAll, LeafPlan, LeafValue, PlanOf, TailOf, Arity, Operation;
    var ir := LeafTailIs(e);
    OneStep(w, ir, State(base, env, h));
    var leaf := e.kind.leaf;
    if leaf.Identifier? || leaf.Throw? || leaf.GenerateWorkerName? {
      EffectfulLeaf(w, leaf, e.ty, ir, base, env, h);
    } else {
      ValueLeaf(w, leaf, e.ty, ir, env, h);
      assert base + [] == base;
      ValueStep(w, ir, base, [], env, h);
    }
  }

  lemma {:induction false} EffectfulLeaf<H>(w: World<H>, leaf: Leaf, ty: InferredType, ir: IR, base: seq<StackValue>,
                                            env: Env, h: H)
    requires hide *; leaf.Identifier? || leaf.Throw? || leaf.GenerateWorkerName?
    requires LeafPlan(leaf, ty) == Operands([], [ir])
    ensures Exec(w, ir, 0, State(base, env, h)) == Afterwards(base, env, LeafValue(w, leaf, ty, env, h))
  {
    hide WitOf, NumberAs, Machine.Compute, AsInstanceVariable, Invoke;
    assert PlainTail(Operands([], [ir])) == [ir];
  }

  function PlainTail(p: Plan): seq<IR> { if p.Parts? then p.tail else [] }

  lemma {:induction false} ValueLeaf<H>(w: World<H>, leaf: Leaf, ty: InferredType, ir: IR, env: Env, h: H)
    requires hide *; !leaf.Identifier? && !leaf.Throw? && !leaf.GenerateWorkerName?
    requires LeafPlan(leaf, ty) == Operands([], [ir])
    ensures Arity(ir) == Some(0)
    ensures LeafValue(w, leaf, ty, env, h) == Given(Operation(w.text, ir, Reverse([])), h)
  {
    hide NumberAs, Weight, MathValues, CompareValues, WitOf, Iterated, SelectItem;
    assert PlainTail(Operands([], [ir])) == [ir];
    assert Reverse<StackValue>([]) == [];
  }

  lemma UnaryTailIs(e: Expr) returns (ir: IR)
    requires hide *; e.kind.Unary? && PlanOf(e, 0).Parts?
    ensures TailOf(PlanOf(e, 0)) == [ir] && UnaryInstruction(e.kind.unary, e.ty) == Some(ir)
  {
    hide WitOf, Weight, ByteCode.Tails, MatchPlan, LeafPlan, CallPlan, SelectPlan, RangePlan;
    var p := PlanOf(e, 0);
    ByteCode.SmallTails(p.chunks[0], p.chunks[0], p.chunks[0]);
    assert p.chunks == [p.chunks[0]];
    ir := TailOf(p)[0];
    assert TailOf(p) == [ir];
  }

  function UnaryInstruction(op: UnaryOp, ty: InferredType): Option<IR> {
    hide *;
    match op
    case Not => Some(Negate)
    case Unwrap => Some(Deconstruct)
    case Length => Some(LengthIR)
    case GetTag => Some(GetTagIR)
    case SelectField(f) => Some(SelectFieldIR(f))
    case MakeSome => if WitOf(ty).Some? then Some(PushSome(WitOf(ty).value)) else None
    case MakeOk => if WitOf(ty).Some? then Some(PushOkResult(WitOf(ty).value)) else None
    case MakeErr => if WitOf(ty).Some? then Some(PushErrResult(WitOf(ty).value)) else None
  }

  lemma UnaryOperation(text: ValueAndType -> string, op: UnaryOp, ty: InferredType, ir: IR, v: StackValue)
    requires hide *; UnaryInstruction(op, ty) == Some(ir)
    ensures Arity(ir) == Some(1) && !ByteCode.IsJump(ir) && Operation(text, ir, [v]) == UnaryValue(op, ty, v)
  {
    hide WitOf, MakeSomeOf, MakeOkOf, MakeErrOf, UnwrapValue, LengthOf, TagOf, SelectFieldOf, Negated, MathValues,
         CompareValues;
  }

  lemma {:induction false} UnaryTail<H>(w: World<H>, e: Expr, base: seq<StackValue>, v: StackValue, env: Env, h: H)
    requires hide *; e.kind.Unary? && PlanOf(e, 0).Parts?
    ensures ExecAll(w, TailOf(PlanOf(e, 0)), State(base + [v], env, h))
            == Afterwards(base, env, Given(UnaryValue(e.kind.unary, e.ty, v), h))
  {
    hide Exec, ExecAll, PlanOf, TailOf, UnaryInstruction, UnaryValue, Operation, Arity;
    var ir := UnaryTailIs(e);
    UnaryOperation(w.text, e.kind.unary, e.ty, ir, v);
    OneValue(w, ir, base, [v], env, h);
    assert Reverse([v]) == [v];
  }

  lemma {:induction false} BinaryTail<H>(w: World<H>, e: Expr, base: seq<StackValue>, r: StackValue, l: StackValue, env: Env,
                                         h: H)
    requires hide *; e.kind.Binary? && IsStrict(e) && PlanOf(e, 0).Parts?
    ensures ExecAll(w, TailOf(PlanOf(e, 0)), State(base + [r, l], env, h))
            == Afterwards(base, env, Given(BinaryValue(e.kind.binary, e.ty, l, r), h))
  {
    hide Exec, WitOf, ExecAll, Values.Compute, MatchPlan, CompareValues;
    var p := PlanOf(e, 0);
    ByteCode.TailsOfPlainly(Ops(e));
    var ir := p.tail[0];
    assert TailOf(p) == [ir];
    OneValue(w, ir, base, [r, l], env, h);
    assert Reverse([r, l]) == [l, r];
  }

  lemma ListTailIs(e: Expr) returns (ir: IR)
    requires hide *; e.kind.ListOf? && PlanOf(e, 0).Parts?
    ensures TailOf(PlanOf(e, 0)) == [ir] && ListInstruction(e.kind.listOp, |e.kind.exprs|, e.ty) == Some(ir)
  {
    hide WitOf, Weight, ByteCode.Tails, Reverse, MatchPlan, LeafPlan, CallPlan, SelectPlan, RangePlan;
    var p := PlanOf(e, 0);
    ByteCode.TailsOfPlainly(Ops(e));
    ir := p.tail[0];
    assert TailOf(p) == [ir];
  }

  function ListInstruction(op: ListOp, n: nat, ty: InferredType): Option<IR> {
    hide *;
    match op
    case Sequence => if WitOf(ty).Some? then Some(PushList(WitOf(ty).value, n)) else None
    case Tuple => if WitOf(ty).Some? then Some(PushTuple(WitOf(ty).value, n)) else None
    case Concat => Some(ConcatIR(n))
  }

  lemma ListOperation(text: ValueAndType -> string, op: ListOp, ty: InferredType, ir: IR, vs: seq<StackValue>)
    requires hide *; ListInstruction(op, |vs|, ty) == Some(ir)
    ensures Arity(ir) == Some(|vs|) && !ByteCode.IsJump(ir) && Operation(text, ir, vs) == ListValue(text, op, ty, vs)
  {
    hide WitOf, MakeList, MakeTuple, Concatenated, MathValues, CompareValues, Iterated, TagOf, MakeEnum, UnwrapValue;
  }

  lemma {:induction false} ListTail<H>(w: World<H>, e: Expr, base: seq<StackValue>, vs: seq<StackValue>, env: Env, h: H)
    requires hide *; e.kind.ListOf? && PlanOf(e, 0).Parts? && |vs| == |e.kind.exprs|
    ensures ExecAll(w, TailOf(PlanOf(e, 0)), State(base + vs, env, h))
            == Afterwards(base, env, Given(ListValue(w.text, e.kind.listOp, e.ty, Reverse(vs)), h))
  {
    hide Exec, ExecAll, PlanOf, TailOf, ListInstruction, ListValue, Operation, Arity, Reverse;
    var ir := ListTailIs(e);
    ListOperation(w.text, e.kind.listOp, e.ty, ir, Reverse(vs));
    OneValue(w, ir, base, vs, env, h);
  }

  lemma {:induction false} RecordTail<H>(w: World<H>, e: Expr, base: seq<StackValue>, vs: seq<StackValue>, env: Env, h: H)
    requires hide TailComputes, PlanOf; e.kind.Record? && PlanOf(e, 0).Parts? && |vs| == |e.kind.fields|
    ensures TailComputes(w, e, base, vs, env, h)
  {
    hide Exec, WitOf, ExecAll, BinaryValue, UnaryValue, LeafValue, CallValue, MatchPlan;
    var p := PlanOf(e, 0);
    ByteCode.TailsOfPlainly(Ops(e));
    UpdatesAreSets(e.kind.fields);
    assert TailOf(p) == p.tail;
    BuildsRecord(w, WitOf(e.ty).value, Names(e.kind.fields), Reverse(vs), base, env, h);
    ReverseTwice(vs);
  }

  /** A range pushes its flag over the ends and then builds the record. */
  lemma {:induction false} FlagThenRecord<H>(w: World<H>, t: WitType, flag: ValueAndType, names: seq<string>,
                                             base: seq<StackValue>, vs: seq<StackValue>, env: Env, h: H)
    requires hide *; |names| == |vs| + 1
    ensures ExecAll(w, [PushLit(flag)] + ([CreateAndPushRecord(t)] + Sets(names)), State(base + vs, env, h))
            == Afterwards(base, env, Given(RecordValue(EmptyRecord(t), names, [Val(flag)] + Reverse(vs)), h))
  {
    hide Exec, ExecAll, RecordValue, MathValues, CompareValues, Iterated, TagOf;
    var all := [Val(flag)] + Reverse(vs);
    ExecAllAppend(w, [PushLit(flag)], [CreateAndPushRecord(t)] + Sets(names), State(base + vs, env, h));
    assert (base + vs) + [] == base + vs;
    OneValue(w, PushLit(flag), base + vs, [], env, h);
    ReverseTwice(vs);
    assert (base + vs) + [Val(flag)] == base + Reverse(all);
    BuildsRecord(w, t, names, all, base, env, h);
  }

  function RangeNames(closed: bool): seq<string> { if closed then ["inclusive", "to", "from"] else ["inclusive", "from"] }

  lemma RangeTailIs(e: Expr)
    requires hide *; e.kind.Range? && PlanOf(e, 0).Parts?
    ensures WitOf(e.ty).Some?
    ensures TailOf(PlanOf(e, 0)) == [PushLit(BoolVT(e.kind.inclusive))]
                                    + ([CreateAndPushRecord(WitOf(e.ty).value)] + Sets(RangeNames(e.kind.to.Some?)))
  {
    hide WitOf, CallPlan;
    var p := PlanOf(e, 0);
    ByteCode.SmallTails(p.chunks[0], p.chunks[|p.chunks| - 1], p.chunks[0]);
    RangeSets();
  }

  lemma {:induction false} RangeTail<H>(w: World<H>, e: Expr, base: seq<StackValue>, vs: seq<StackValue>, env: Env, h: H)
    requires hide Combine, ExecAll, PlanOf, Ops, TailComputes; e.kind.Range? && PlanOf(e, 0).Parts? && |vs| == |Ops(e)|
    ensures TailComputes(w, e, base, vs, env, h)
  {
    hide WitOf, ExecAll, PlanOf, RecordValue, BinaryValue, LeafValue, CallValue, Exprs;
    RangeTailIs(e);
    FlagThenRecord(w, WitOf(e.ty).value, BoolVT(e.kind.inclusive), RangeNames(e.kind.to.Some?), base, vs, env, h);
    var flag := MkVal(e.kind.inclusive);
    if e.kind.to.Some? {
      assert [flag] + Reverse(vs) == [flag, Reverse(vs)[0], Reverse(vs)[1]];
    } else {
      assert [flag] + Reverse(vs) == [flag, Reverse(vs)[0]];
    }
  }

  lemma RangeSets()
    ensures Sets(["inclusive", "to", "from"]) == [UpdateRecord("inclusive"), UpdateRecord("to"), UpdateRecord("from")]
    ensures Sets(["inclusive", "from"]) == [UpdateRecord("inclusive"), UpdateRecord("from")]
  {
    assert Sets(["from"]) == [UpdateRecord("from")] by { assert ["from"][1..] == []; }
    assert Sets(["to", "from"]) == [UpdateRecord("to"), UpdateRecord("from")] by { assert ["to", "from"][1..] == ["from"]; }
    assert ["inclusive", "to", "from"][1..] == ["to", "from"];
    assert ["inclusive", "from"][1..] == ["from"];
  }

  lemma {:induction false} InvokeTail<H>(w: World<H>, name: string, receiver: InstanceVariable, component: int,
                                         result: Option<WitType>, base: seq<StackValue>, vs: seq<StackValue>, env: Env, h: H)
    ensures hide *;
            ExecAll(w, [CreateFunctionName(name), InvokeFunction(component, receiver, |vs|, result)], State(base + vs, env, h))
            == Afterwards(base, env, CallHost(w, name, receiver, component, result, Reverse(vs), env, h))
  {
    hide Exec, Operation, Resolve, ExecAll, CasePayload, StrVT;
    var call := InvokeFunction(component, receiver, |vs|, result);
    var create := CreateFunctionName(name);
    var st := State(base + vs, env, h);
    assert [create, call] == [create] + [call];
    ExecAllAppend(w, [create], [call], st);
    assert (base + vs) + [] == base + vs;
    OneValue(w, create, base + vs, [], env, h);
    NameStep(w.text, name);
    var st1 := State(base + vs + [Val(StrVT(name))], env, h);
    OneStep(w, call, st1);
    InvokeStep(w, name, receiver, component, result, base, vs, env, h);
  }

  lemma NameStep(text: ValueAndType -> string, name: string)
    ensures hide Operation, StrVT; Operation(text, CreateFunctionName(name), Reverse([])) == Some(Val(StrVT(name)))
  {
    hide MathValues, CompareValues, Iterated, SelectItem;
  }

  lemma {:induction false} AskedIs(text: ValueAndType -> string, name: string, receiver: InstanceVariable, component: int,
                                   result: Option<WitType>, base: seq<StackValue>, vs: seq<StackValue>, env: Env)
    ensures hide *; Asked(text, InvokeFunction(component, receiver, |vs|, result), base + vs + [Val(StrVT(name))], env)
            == var vts := AllVals(Reverse(vs));
               if vts.None? || Resolve(text, receiver, env, vts.value).None? then None
               else
                 var callee := Resolve(text, receiver, env, vts.value).value;
                 Some((CallRecord(component, callee.0, name, callee.1, result), base))
  {
    hide Resolve, AllVals, Reverse, TopN;
    var stack := base + vs + [Val(StrVT(name))];
    assert stack[..|stack| - 1] == base + vs;
    TopNReverse(base, vs);
    assert stack[..|stack| - 1 - |vs|] == base;
  }

  lemma {:induction false} InvokeStep<H>(w: World<H>, name: string, receiver: InstanceVariable, component: int,
                                         result: Option<WitType>, base: seq<StackValue>, vs: seq<StackValue>, env: Env, h: H)
    ensures hide *;
            Exec(w, InvokeFunction(component, receiver, |vs|, result), 0, State(base + vs + [Val(StrVT(name))], env, h))
            == Afterwards(base, env, CallHost(w, name, receiver, component, result, Reverse(vs), env, h))
  {
    hide Resolve, Exec, Asked, AllVals, Reverse;
    AskedIs(w.text, name, receiver, component, result, base, vs, env);
    InvokeAsks(w, InvokeFunction(component, receiver, |vs|, result), 0, State(base + vs + [Val(StrVT(name))], env, h));
  }

  lemma CallTailIs(e: Expr)
    requires hide MatchPlan, LeafPlan, CallPlan, SelectPlan, WitOf; e.kind.Call? && PlanOf(e, 0).Parts?
    ensures TailOf(PlanOf(e, 0)) == CallPlan(e.kind.callType, e.kind.args, e.ty).tail
  {
    hide WitOf, CallPlan, MatchPlan;
    ByteCode.TailsOfPlainly(Ops(e));
  }

  lemma {:induction false} HostCallTail<H>(w: World<H>, e: Expr, base: seq<StackValue>, vs: seq<StackValue>, env: Env, h: H)
    requires hide *; e.kind.Call? && PlanOf(e, 0).Parts? && |vs| == |Ops(e)|
    requires e.kind.callType.Function? || e.kind.callType.ResourceCreation?
    ensures ExecAll(w, TailOf(PlanOf(e, 0)), State(base + vs, env, h))
            == Afterwards(base, env, CallValue(w, e.kind.callType, e.ty, Reverse(vs), env, h))
  {
    hide WitOf, ExecAll, CallHost, Exec, TailOf, Reverse, Weight, CallReceiver, OwnerReceiver, MatchPlan;
    CallTailIs(e);
    var result := if IsUnit(e.ty) then None else WitOf(e.ty);
    match e.kind.callType
    case Function(name, receiver, component) =>
      InvokeTail(w, name, CallReceiver(receiver).value, component.value, result, base, vs, env, h);
    case ResourceCreation(name, owner, component) =>
      InvokeTail(w, name, OwnerReceiver(owner).value, component.value, result, base, vs, env, h);
  }

  lemma {:induction false} ConstructorIs(e: Expr) returns (ir: IR)
    requires hide *; e.kind.Call? && PlanOf(e, 0).Parts?
    requires e.kind.callType.VariantConstructor? || e.kind.callType.EnumConstructor?
    ensures WitOf(e.ty).Some? && TailOf(PlanOf(e, 0)) == [ir]
    ensures e.kind.callType.VariantConstructor? ==> ir == PushVariant(e.kind.callType.variant, WitOf(e.ty).value)
    ensures e.kind.callType.EnumConstructor? ==> ir == PushEnum(e.kind.callType.enum_, WitOf(e.ty).value)
  {
    hide WitOf, TailOf, Reverse, Weight, MatchPlan, LeafPlan;
    CallTailIs(e);
    ir := CallPlan(e.kind.callType, e.kind.args, e.ty).tail[0];
  }

  lemma {:induction false} ConstructorTail<H>(w: World<H>, e: Expr, base: seq<StackValue>, vs: seq<StackValue>, env: Env,
                                              h: H)
    requires hide *;
             e.kind.Call? && PlanOf(e, 0).Parts? && |vs| == |Ops(e)| && ArgsFit(e.kind.callType, e.kind.args, e.ty)
    requires e.kind.callType.VariantConstructor? || e.kind.callType.EnumConstructor?
    ensures ExecAll(w, TailOf(PlanOf(e, 0)), State(base + vs, env, h))
            == Afterwards(base, env, CallValue(w, e.kind.callType, e.ty, Reverse(vs), env, h))
  {
    hide WitOf, ExecAll, Exec, TailOf, PlanOf, CasePayload, MakeVariant, MakeEnum, Reverse, Weight, MathValues,
         CompareValues;
    var ir := ConstructorIs(e);
    OneValue(w, ir, base, vs, env, h);
  }

  lemma {:induction false} WorkerTail<H>(w: World<H>, e: Expr, base: seq<StackValue>, vs: seq<StackValue>, env: Env, h: H)
    requires hide *;
             e.kind.Call? && PlanOf(e, 0).Parts? && |vs| == |Ops(e)| && ArgsFit(e.kind.callType, e.kind.args, e.ty)
    requires e.kind.callType.WorkerCreation?
    ensures ExecAll(w, TailOf(PlanOf(e, 0)), State(base + vs, env, h))
            == Afterwards(base, env, CallValue(w, e.kind.callType, e.ty, Reverse(vs), env, h))
  {
    hide WitOf, ExecAll, Exec, TailOf, Weight, PlanOf, Typed, Exprs;
    CallTailIs(e);
    ExecNothing(w, State(base + vs, env, h));
    assert vs == [vs[0]];
  }

  lemma {:induction false} CallTail<H>(w: World<H>, e: Expr, base: seq<StackValue>, vs: seq<StackValue>, env: Env, h: H)
    requires hide *;
             e.kind.Call? && PlanOf(e, 0).Parts? && |vs| == |Ops(e)| && ArgsFit(e.kind.callType, e.kind.args, e.ty)
    ensures ExecAll(w, TailOf(PlanOf(e, 0)), State(base + vs, env, h))
            == Afterwards(base, env, CallValue(w, e.kind.callType, e.ty, Reverse(vs), env, h))
  {
    hide ExecAll, WitOf, TailOf, PlanOf, CallValue, Ops, ArgsFit, Reverse;
    match e.kind.callType
    case Function(_, _, _) => HostCallTail(w, e, base, vs, env, h);
    case ResourceCreation(_, _, _) => HostCallTail(w, e, base, vs, env, h);
    case WorkerCreation(_, _) => WorkerTail(w, e, base, vs, env, h);
    case VariantConstructor(_) => ConstructorTail(w, e, base, vs, env, h);
    case EnumConstructor(_) => ConstructorTail(w, e, base, vs, env, h);
  }

  lemma ExecNothing<H>(w: World<H>, st: State<H>)
    ensures ExecAll(w, [], st) == Next(st)
  {
    hide Exec;
  }

  lemma {:induction false} SelectTail<H>(w: World<H>, e: Expr, base: seq<StackValue>, i: StackValue, l: StackValue, env: Env,
                                         h: H)
    requires hide *; e.kind.SelectIndex? && IsStrict(e) && PlanOf(e, 0).Parts?
    ensures ExecAll(w, TailOf(PlanOf(e, 0)), State(base + [i, l], env, h)) == Afterwards(base, env, Given(SelectItem(l, i), h))
  {
    hide Exec, ExecAll;
    var p := PlanOf(e, 0);
    ByteCode.TailsOfPlainly(Ops(e));
    assert TailOf(p) == [SelectIndexV1];
    OneValue(w, SelectIndexV1, base, [i, l], env, h);
    assert Reverse([i, l]) == [l, i];
  }

  lemma {:induction false} StrictTail<H>(w: World<H>, e: Expr, base: seq<StackValue>, vs: seq<StackValue>, env: Env, h: H)
    requires hide *; IsStrict(e) && PlanOf(e, 0).Parts? && |vs| == |Ops(e)|
    requires e.kind.Call? ==> ArgsFit(e.kind.callType, e.kind.args, e.ty)
    ensures TailComputes(w, e, base, vs, env, h)
  {
    hide PlanOf, ExecAll, LeafValue, UnaryValue, BinaryValue, ListValue, CallValue, RangeValue, RecordValue;
    match e.kind
    case Atom(_) => assert vs == [] && base + vs == base; LeafTail(w, e, base, env, h);
    case Unary(_, _) => assert vs == [vs[0]] && Reverse(vs) == vs; UnaryTail(w, e, base, vs[0], env, h);
    case Binary(_, _, _) => assert vs == [vs[0], vs[1]] && Reverse(vs) == [vs[1], vs[0]]; BinaryTail(w, e, base, vs[0], vs[1], env, h);
    case Record(_) => RecordTail(w, e, base, vs, env, h);
    case ListOf(_, _) => ListTail(w, e, base, vs, env, h);
    case SelectIndex(_, _) => assert vs == [vs[0], vs[1]] && Reverse(vs) == [vs[1], vs[0]]; SelectTail(w, e, base, vs[0], vs[1], env, h);
    case Call(_, _) => CallTail(w, e, base, vs, env, h);
    case Range(_, _, _) => RangeTail(w, e, base, vs, env, h);
  }

  // ---------- combinations are plain values ----------

  lemma RecordValuePlain(record: Option<StackValue>, names: seq<string>, vs: seq<StackValue>)
    requires hide *; |names| == |vs| && (record.Some? ==> record.value.Val?)
    ensures RecordValue(record, names, vs).Some? ==> RecordValue(record, names, vs).value.Val?
    decreases |names|
  {
    if record.Some? && names != [] {
      RecordValuePlain(UpdateField(names[0], record.value, vs[0]), names[1..], vs[1..]);
    }
  }

  lemma {:induction false} RangePlain(ty: InferredType, inclusive: bool, from: StackValue, to: Option<StackValue>)
    ensures hide *; RangeValue(ty, inclusive, from, to).Some? ==> RangeValue(ty, inclusive, from, to).value.Val?
  {
    hide WitOf, UpdateField;
    if WitOf(ty).Some? {
      if to.None? {
        RecordValuePlain(EmptyRecord(WitOf(ty).value), ["inclusive", "from"], [MkVal(inclusive), from]);
      } else {
        RecordValuePlain(EmptyRecord(WitOf(ty).value), ["inclusive", "to", "from"], [MkVal(inclusive), to.value, from]);
      }
    }
  }

  lemma {:induction false} CallPlain<H>(w: World<H>, ct: CallType, ty: InferredType, args: seq<StackValue>, env: Env, h: H)
    requires hide *; forall v :: v in args ==> Plainish(v)
    ensures CallValue(w, ct, ty, args, env, h).Answer? ==> Plainish(CallValue(w, ct, ty, args, env, h).v)
    ensures CallValue(w, ct, ty, args, env, h).Answer? && (ct.VariantConstructor? || ct.EnumConstructor?)
            ==> CallValue(w, ct, ty, args, env, h).v.Val?
  {
    hide WitOf, Resolve, CallReceiver, OwnerReceiver;
  }

  lemma {:induction false} OperatorPlain<H>(w: World<H>, e: Expr, vs: seq<StackValue>, env: Env, h: H)
    requires hide *; IsStrict(e) && |vs| == |Ops(e)| && !e.kind.Record? && !e.kind.Range? && !e.kind.Call?
    ensures Combine(w, e, vs, env, h).Answer? ==> Plainish(Combine(w, e, vs, env, h).v)
    ensures Combine(w, e, vs, env, h).Answer? && SolidResult(e) ==> Combine(w, e, vs, env, h).v.Val?
  {
    hide WitOf, CompareTyped, Weight, CallValue, RecordValue, RangeValue, Ops;
  }

  lemma {:induction false} CombinePlain<H>(w: World<H>, e: Expr, vs: seq<StackValue>, env: Env, h: H)
    requires hide *; IsStrict(e) && |vs| == |Ops(e)| && (forall v :: v in vs ==> Plainish(v))
    ensures Combine(w, e, vs, env, h).Answer? ==> Plainish(Combine(w, e, vs, env, h).v)
    ensures Combine(w, e, vs, env, h).Answer? && SolidResult(e) ==> Combine(w, e, vs, env, h).v.Val?
  {
    hide WitOf, LeafValue, UnaryValue, BinaryValue, ListValue, SelectItem, CallValue, RecordValue, RangeValue, Exprs;
    match e.kind {
      case Record(fs) => if WitOf(e.ty).Some? { RecordValuePlain(EmptyRecord(WitOf(e.ty).value), Names(fs), vs); }
      case Range(_, to, inclusive) => RangePlain(e.ty, inclusive, if to.None? then vs[0] else vs[1], if to.None? then None else Some(vs[0]));
      case Call(ct, _) => CallPlain(w, ct, e.ty, vs, env, h);
      case _ => OperatorPlain(w, e, vs, env, h);
    }
  }

  // ===== The loops of comprehensions and reductions on the machine: iterator below, sink or nothing above it.

  /** What a loop keeps above its iterator. */
  predicate LoopRest(rest: seq<StackValue>) { rest == [] || (|rest| == 1 && rest[0].Sink?) }

  lemma {:induction false} Checks<H>(under: seq<StackValue>, items: seq<ValueAndType>, rest: seq<StackValue>, env: Env, h: H)
    requires LoopRest(rest)
    ensures var stack := under + [Iter(items)] + rest;
            CheckEmpty(State(stack, env, h)) == Next(State(stack + [MkVal(items != [])], env, h))
  {
  }

  lemma {:induction false} Advances<H>(under: seq<StackValue>, items: seq<ValueAndType>, rest: seq<StackValue>, env: Env,
                                       h: H)
    requires LoopRest(rest) && items != []
    ensures Advance(State(under + [Iter(items)] + rest, env, h))
            == Next(State(under + [Iter(items[1..])] + rest + [Val(items[0])], env, h))
  {
    var stack := under + [Iter(items)] + rest;
    if rest == [] {
      assert stack[..|stack| - 1] == under;
    } else {
      assert stack[..|stack| - 2] == under && stack[|stack| - 2] == Iter(items);
    }
  }

  lemma AssignReaches<H(!new)>(w: World<H>, prog: seq<IR>, pc: nat, base: seq<StackValue>, v: StackValue, env: Env, h: H)
    requires hide *; pc < |prog| && prog[pc].AssignVar?
    ensures Reach(w, prog, Run(pc, State(base + [v], env, h)), Run(pc + 1, State(base, env[prog[pc].variable := v], h)))
  {
    hide Reach, Machine.Compute, Values.Compute, Invoke, GenerateNameFor;
    assert (base + [v])[..|base + [v]| - 1] == base;
    StepNext(w, prog, pc, State(base + [v], env, h));
  }

  lemma LoadReaches<H(!new)>(w: World<H>, prog: seq<IR>, pc: nat, st: State<H>)
    requires hide *; pc < |prog| && prog[pc].LoadVar?
    ensures var x := prog[pc].variable;
            if x in st.env && Plainish(st.env[x]) then Reach(w, prog, Run(pc, st), Run(pc + 1, st.(stack := st.stack + [st.env[x]])))
            else Reach(w, prog, Run(pc, st), Failed(st.h))
  {
    hide Reach, Machine.Compute, Values.Compute, Invoke, GenerateNameFor;
    var x := prog[pc].variable;
    if x in st.env && Plainish(st.env[x]) {
      StepNext(w, prog, pc, st);
    } else {
      StepStop(w, prog, pc, st);
    }
  }

  lemma TestReaches<H(!new)>(w: World<H>, prog: seq<IR>, pc: nat, under: seq<StackValue>, items: seq<ValueAndType>,
                             rest: seq<StackValue>, env: Env, h: H)
    requires hide *; pc < |prog| && prog[pc] == IsEmpty && LoopRest(rest)
    ensures var stack := under + [Iter(items)] + rest;
            Reach(w, prog, Run(pc, State(stack, env, h)), Run(pc + 1, State(stack + [MkVal(items != [])], env, h)))
  {
    hide Reach, CheckEmpty, Machine.Compute, Values.Compute, Invoke, GenerateNameFor, SinkAsList;
    Checks(under, items, rest, env, h);
    StepNext(w, prog, pc, State(under + [Iter(items)] + rest, env, h));
  }

  lemma AdvanceReaches<H(!new)>(w: World<H>, prog: seq<IR>, pc: nat, under: seq<StackValue>, items: seq<ValueAndType>,
                                rest: seq<StackValue>, env: Env, h: H)
    requires hide *; pc < |prog| && prog[pc] == AdvanceIterator && LoopRest(rest) && items != []
    ensures Reach(w, prog, Run(pc, State(under + [Iter(items)] + rest, env, h)),
                  Run(pc + 1, State(under + [Iter(items[1..])] + rest + [Val(items[0])], env, h)))
  {
    hide Reach, Advance, Machine.Compute, Values.Compute, Invoke, GenerateNameFor, Gen, MkVal;
    Advances(under, items, rest, env, h);
    StepNext(w, prog, pc, State(under + [Iter(items)] + rest, env, h));
  }

  /** A conditional jump on top of anything. */
  lemma {:induction false} Branching<H(!new)>(w: World<H>, prog: seq<IR>, pc: nat, base: seq<StackValue>, v: StackValue, env: Env, h: H, target: nat)
    requires hide *; ByteCode.Unique(prog) && pc < |prog| && target < |prog|
    requires prog[pc].JumpIfFalse? && prog[target] == Label(prog[pc].target)
    ensures IsBool(v, true) ==> Reach(w, prog, Run(pc, State(base + [v], env, h)), Run(pc + 1, State(base, env, h)))
    ensures IsBool(v, false) ==> Reach(w, prog, Run(pc, State(base + [v], env, h)), Run(target + 1, State(base, env, h)))
    ensures !IsBool(v, true) && !IsBool(v, false) ==> Reach(w, prog, Run(pc, State(base + [v], env, h)), Failed(h))
  {
    hide Reach, ByteCode.Unique, Machine.Compute, Values.Compute, Invoke, GenerateNameFor, SinkAsList, AddToSink,
         CheckEmpty;
    var st := State(base + [v], env, h);
    assert st.stack[..|st.stack| - 1] == base;
    if IsBool(v, true) {
      StepNext(w, prog, pc, st);
    } else if IsBool(v, false) {
      StepGoto(w, prog, pc, st, target);
    } else {
      StepStop(w, prog, pc, st);
    }
  }

  lemma JumpReaches<H(!new)>(w: World<H>, prog: seq<IR>, pc: nat, st: State<H>, target: nat)
    requires hide *;
             ByteCode.Unique(prog) && pc < |prog| && target < |prog| && prog[pc].Jump? && prog[target] == Label(prog[pc].target)
    ensures Reach(w, prog, Run(pc, st), Run(target + 1, st))
  {
    hide Reach, ByteCode.Unique, AddToSink, Advance, GenerateNameFor, Invoke, Machine.Compute, SinkAsList,
         Values.Compute;
    StepGoto(w, prog, pc, st, target);
  }

  lemma LabelReaches<H(!new)>(w: World<H>, prog: seq<IR>, pc: nat, st: State<H>)
    requires hide *; pc < |prog| && prog[pc].Label?
    ensures Reach(w, prog, Run(pc, st), Run(pc + 1, st))
  {
    hide Reach, Machine.Compute, Values.Compute, Invoke, GenerateNameFor, SinkAsList, CheckEmpty, IsBool;
    StepNext(w, prog, pc, st);
  }

  /** A loop with its head at l, its body behind the head up to q, and its exit label at exit. */
  ghost predicate LoopAt(prog: seq<IR>, n: nat, x: VariableId, l: nat, exit: nat) {
    hide *;
    && ByteCode.Unique(prog) && l + 5 <= exit < |prog|
    && prog[l] == Label(n + 1) && prog[l + 1] == IsEmpty && prog[l + 2] == JumpIfFalse(n + 2)
    && prog[l + 3] == AdvanceIterator && prog[l + 4] == AssignVar(x) && prog[exit] == Label(n + 2)
  }

  lemma {:induction false} LoopHeadAt(prog: seq<IR>, n: nat, x: VariableId, l: nat, exit: nat)
    requires hide *;
             ByteCode.Unique(prog) && At(prog, l, LoopHead(n, x)) && l + 5 <= exit < |prog| && prog[exit] == Label(n + 2)
    ensures LoopAt(prog, n, x, l, exit)
  {
    hide ByteCode.Unique;
    var head := LoopHead(n, x);
    assert prog[l + 0] == head[0] && prog[l + 1] == head[1] && prog[l + 2] == head[2] && prog[l + 3] == head[3]
      && prog[l + 4] == head[4];
  }

  /** From behind the head label, an exhausted iterator leads out of the loop with the stack as it was; otherwise the
      next item goes into the variable and the body starts. */
  lemma LoopTest<H(!new)>(w: World<H>, prog: seq<IR>, n: nat, x: VariableId, l: nat, exit: nat,
                          under: seq<StackValue>, items: seq<ValueAndType>, rest: seq<StackValue>, env: Env, h: H)
    requires hide *; LoopAt(prog, n, x, l, exit) && LoopRest(rest)
    ensures var a := Run(l + 1, State(under + [Iter(items)] + rest, env, h));
            if items == [] then Reach(w, prog, a, Run(exit + 1, a.st))
            else Reach(w, prog, a, Run(l + 5, State(under + [Iter(items[1..])] + rest, env[x := Val(items[0])], h)))
  {
    hide Reach, ByteCode.Unique, LoopRest;
    var stack := under + [Iter(items)] + rest;
    var st := State(stack, env, h);
    var tested := Run(l + 2, State(stack + [MkVal(items != [])], env, h));
    TestReaches(w, prog, l + 1, under, items, rest, env, h);
    Branching(w, prog, l + 2, stack, MkVal(items != []), env, h, exit);
    if items == [] {
      ReachTrans(w, prog, Run(l + 1, st), tested, Run(exit + 1, st));
    } else {
      var next := under + [Iter(items[1..])] + rest;
      var loaded := Run(l + 4, State(next + [Val(items[0])], env, h));
      var ready := Run(l + 5, State(next, env[x := Val(items[0])], h));
      ReachTrans(w, prog, Run(l + 1, st), tested, Run(l + 3, st));
      AdvanceReaches(w, prog, l + 3, under, items, rest, env, h);
      ReachTrans(w, prog, Run(l + 1, st), Run(l + 3, st), loaded);
      AssignReaches(w, prog, l + 4, next, Val(items[0]), env, h);
      ReachTrans(w, prog, Run(l + 1, st), loaded, ready);
    }
  }

  // ---------- collecting ----------

  lemma TopSinkOver(stack: seq<StackValue>, v: StackValue)
    ensures TopSink(stack + [v]) == if v.Sink? then Some(|stack|) else TopSink(stack)
  {
    assert (stack + [v])[..|stack + [v]| - 1] == stack;
  }

  lemma TopSinkIs(under: seq<StackValue>, sink: StackValue, junk: seq<StackValue>)
    requires sink.Sink? && NoSinks(junk)
    ensures TopSink(under + [sink] + junk) == Some(|under|)
    decreases |junk|
  {
    hide TopSink;
    if junk == [] {
      TopSinkOver(under, sink);
      assert under + [sink] + junk == under + [sink];
    } else {
      var last := |junk| - 1;
      assert junk[last] in junk;
      assert under + [sink] + junk == (under + [sink] + junk[..last]) + [junk[last]];
      TopSinkOver(under + [sink] + junk[..last], junk[last]);
      TopSinkIs(under, sink, junk[..last]);
    }
  }

  lemma {:induction false} AddsToSink<H>(under: seq<StackValue>, acc: seq<ValueAndType>, elem: WitType,
                                         junk: seq<StackValue>, v: StackValue, env: Env, h: H)
    requires hide *; NoSinks(junk) && Plainish(v) && (v.Unit? ==> junk == [])
    ensures AddToSink(State(under + [Sink(acc, elem)] + junk + [v], env, h))
            == Next(State(under + [Sink(if v.Val? then acc + [v.vt] else acc, elem)], env, h))
  {
    hide TopSink;
    var below := under + [Sink(acc, elem)] + junk;
    assert (below + [v])[..|below|] == below;
    TopSinkIs(under, Sink(acc, elem), junk);
    assert below[..|under|] == under && below[|under|] == Sink(acc, elem);
  }

  /** The value of a body goes into the sink, what the body has left disappears, and the loop starts over. */
  lemma CollectItem<H(!new)>(w: World<H>, prog: seq<IR>, n: nat, x: VariableId, l: nat, q: nat, under: seq<StackValue>,
                             acc: seq<ValueAndType>, elem: WitType, junk: seq<StackValue>, v: StackValue, env: Env, h: H)
    requires hide RunN; LoopAt(prog, n, x, l, q + 2) && prog[q] == PushToSink && prog[q + 1] == Jump(n + 1)
    requires NoSinks(junk) && Plainish(v) && (v.Unit? ==> junk == [])
    ensures Reach(w, prog, Run(q, State(under + [Sink(acc, elem)] + junk + [v], env, h)),
                  Run(l + 1, State(under + [Sink(if v.Val? then acc + [v.vt] else acc, elem)], env, h)))
  {
    hide Reach, ByteCode.Unique, AddToSink, NoSinks, Advance, GenerateNameFor, Invoke, Machine.Compute, SinkAsList,
         Values.Compute, IsBool;
    var st := State(under + [Sink(acc, elem)] + junk + [v], env, h);
    var added := State(under + [Sink(if v.Val? then acc + [v.vt] else acc, elem)], env, h);
    AddsToSink(under, acc, elem, junk, v, env, h);
    StepNext(w, prog, q, st);
    JumpReaches(w, prog, q + 1, added, l);
    ReachTrans(w, prog, Run(q, st), Run(q + 1, added), Run(l + 1, added));
  }

  lemma SinkToListReaches<H(!new)>(w: World<H>, prog: seq<IR>, pc: nat, under: seq<StackValue>, acc: seq<ValueAndType>, elem: WitType,
                                   env: Env, h: H)
    requires hide *; pc < |prog| && prog[pc] == SinkToList
    ensures Reach(w, prog, Run(pc, State(under + [Sink(acc, elem)], env, h)),
                  Run(pc + 1, State(under + [Val(VT(VList(ValuesOf(acc)), WList(elem)))], env, h)))
  {
    hide Reach, TopSink, Arity, Operation, Invoke, AddToSink;
    var stack := under + [Sink(acc, elem)];
    assert stack + [] == stack;
    TopSinkIs(under, Sink(acc, elem), []);
    assert stack[..|under|] == under && stack[|under|] == Sink(acc, elem);
    StepNext(w, prog, pc, State(stack, env, h));
  }

  // ---------- entering ----------

  /** The iterator replaces the value; the result of an expression that cannot be iterated over is an error. */
  lemma ToIteratorReaches<H(!new)>(w: World<H>, prog: seq<IR>, pc: nat, base: seq<StackValue>, v: StackValue, env: Env, h: H)
    requires hide *; pc < |prog| && prog[pc] == ToIterator
    ensures if Iterated(v).Some? then Reach(w, prog, Run(pc, State(base + [v], env, h)), Run(pc + 1, State(base + [Iterated(v).value], env, h)))
            else Reach(w, prog, Run(pc, State(base + [v], env, h)), Failed(h))
  {
    hide Reach, Iterated;
    var st := State(base + [v], env, h);
    assert TopN(st.stack, 1) == [v];
    assert st.stack[..|st.stack| - 1] == base;
    if Iterated(v).Some? {
      StepNext(w, prog, pc, st);
    } else {
      StepStop(w, prog, pc, st);
    }
  }

  lemma CreateSinkReaches<H(!new)>(w: World<H>, prog: seq<IR>, pc: nat, t: WitType, st: State<H>)
    requires hide *; pc < |prog| && prog[pc] == CreateSink(t)
    ensures if t.WList? then Reach(w, prog, Run(pc, st), Run(pc + 1, st.(stack := st.stack + [Sink([], t.elem)])))
            else Reach(w, prog, Run(pc, st), Failed(st.h))
  {
    hide Reach, Gen;
    assert TopN(st.stack, 0) == [];
    assert st.stack[..|st.stack|] == st.stack;
    if t.WList? {
      StepNext(w, prog, pc, st);
    } else {
      StepStop(w, prog, pc, st);
    }
  }

  function IteratedItems(v: StackValue): seq<ValueAndType>
    requires Iterated(v).Some?
  {
    Iterated(v).value.items
  }

  lemma IteratedIsIter(v: StackValue)
    requires hide *; Iterated(v).Some?
    ensures Iterated(v).value == Iter(IteratedItems(v))
  {
  }

  /** From the value of the iterable to the test of the loop that collects. */
  lemma EntersCollect<H(!new)>(w: World<H>, prog: seq<IR>, n: nat, x: VariableId, p: nat, exit: nat, t: WitType,
                               base: seq<StackValue>, v: StackValue, env: Env, h: H)
    requires hide Iterated, RunN, Unique;
             LoopAt(prog, n, x, p + 2, exit) && prog[p] == ToIterator && prog[p + 1] == CreateSink(t)
    ensures var a := Run(p, State(base + [v], env, h));
            if Iterated(v).Some? && t.WList?
            then Reach(w, prog, a, Run(p + 3, State(base + [Iter(IteratedItems(v))] + [Sink([], t.elem)], env, h)))
            else Reach(w, prog, a, Failed(h))
  {
    hide Reach, Iterated, ByteCode.Unique;
    var a := Run(p, State(base + [v], env, h));
    ToIteratorReaches(w, prog, p, base, v, env, h);
    if Iterated(v).Some? {
      IteratedIsIter(v);
      var iterating := State(base + [Iter(IteratedItems(v))], env, h);
      CreateSinkReaches(w, prog, p + 1, t, iterating);
      if t.WList? {
        var full := State(iterating.stack + [Sink([], t.elem)], env, h);
        ReachTrans(w, prog, a, Run(p + 1, iterating), Run(p + 2, full));
        LabelReaches(w, prog, p + 2, full);
        ReachTrans(w, prog, a, Run(p + 2, full), Run(p + 3, full));
      } else {
        ReachTrans(w, prog, a, Run(p + 1, iterating), Failed(h));
      }
    }
  }

  /** From the values of the iterable and of the start to the test of the loop that reduces. */
  lemma EntersFold<H(!new)>(w: World<H>, prog: seq<IR>, n: nat, rx: VariableId, x: VariableId, p: nat, exit: nat,
                            base: seq<StackValue>, v: StackValue, u: StackValue, env: Env, h: H)
    requires hide Iterated, RunN, Unique;
             LoopAt(prog, n, x, p + 2, exit) && prog[p] == AssignVar(rx) && prog[p + 1] == ToIterator
    ensures var a := Run(p, State(base + [v] + [u], env, h));
            if Iterated(v).Some? then Reach(w, prog, a, Run(p + 3, State(base + [Iter(IteratedItems(v))] + [], env[rx := u], h)))
            else Reach(w, prog, a, Failed(h))
  {
    hide Reach, Iterated, ByteCode.Unique, IteratedItems, RunN;
    var a := Run(p, State(base + [v] + [u], env, h));
    var bound := Run(p + 1, State(base + [v], env[rx := u], h));
    AssignReaches(w, prog, p, base + [v], u, env, h);
    ToIteratorReaches(w, prog, p + 1, base, v, env[rx := u], h);
    if Iterated(v).Some? {
      IteratedIsIter(v);
      var iterating := State(base + [Iter(IteratedItems(v))], env[rx := u], h);
      ReachTrans(w, prog, a, bound, Run(p + 2, iterating));
      LabelReaches(w, prog, p + 2, iterating);
      ReachTrans(w, prog, a, Run(p + 2, iterating), Run(p + 3, iterating));
      assert iterating.stack + [] == iterating.stack;
    } else {
      ReachTrans(w, prog, a, bound, Failed(h));
    }
  }

  /** The value of a body goes into the accumulator and the loop starts over. */
  lemma FoldItem<H(!new)>(w: World<H>, prog: seq<IR>, n: nat, rx: VariableId, x: VariableId, l: nat, q: nat, under: seq<StackValue>,
                          v: StackValue, env: Env, h: H)
    requires hide RunN; LoopAt(prog, n, x, l, q + 2) && prog[q] == AssignVar(rx) && prog[q + 1] == Jump(n + 1)
    ensures Reach(w, prog, Run(q, State(under + [v], env, h)), Run(l + 1, State(under, env[rx := v], h)))
  {
    hide Reach, ByteCode.Unique, RunN;
    var st := State(under, env[rx := v], h);
    AssignReaches(w, prog, q, under, v, env, h);
    JumpReaches(w, prog, q + 1, st, l);
    ReachTrans(w, prog, Run(q, State(under + [v], env, h)), Run(q + 1, st), Run(l + 1, st));
  }
}
