/** The main results about compiled programs. */
module Correctness {
  import opened Syntax
  import opened Values
  import opened Machine
  import opened Lockstep
  import opened Running
  import opened ByteCode
  import opened Evaluation
  import opened Simulation

  // ===== Any world, seen from one run: a host that gives the same answers without looking at positions.

  /** The machine is about to ask the host, for the answer to a call or for a name. */
  ghost predicate Asks<H>(w: World<H>, prog: seq<IR>, c: Config<H>) {
    hide *;
    c.Run? && c.pc < |prog|
    && var ir := prog[c.pc];
       (ir.InvokeFunction? && Asked(w.text, ir, c.st.stack, c.st.env).Some?)
       || (ir.GenerateName? && !(ir.worker.Some? && AsInstanceVariable(ir.worker.value) in c.st.env))
  }

  ghost predicate NextAsk<H>(w: World<H>, prog: seq<IR>, a: Config<H>, k: nat, j: nat) {
    k <= j && Asks(w, prog, RunN(w, prog, a, j)) && forall i: nat :: k <= i < j ==> !Asks(w, prog, RunN(w, prog, a, i))
  }

  /** The first step from k on at which the run from a asks the host. */
  ghost function AskFrom<H>(w: World<H>, prog: seq<IR>, a: Config<H>, k: nat): nat {
    hide *;
    if exists j: nat :: NextAsk(w, prog, a, k, j) then
      var j: nat :| NextAsk(w, prog, a, k, j); j
    else k
  }

  ghost function AnswerTo<H>(w: World<H>, prog: seq<IR>, c: Config<H>): Option<Option<ValueAndType>> {
    hide *;
    if c.Run? && c.pc < |prog| && prog[c.pc].InvokeFunction? && Asked(w.text, prog[c.pc], c.st.stack, c.st.env).Some? then
      w.invoke(c.st.h, c.pc + 1, Asked(w.text, prog[c.pc], c.st.stack, c.st.env).value.0).1
    else None
  }

  ghost function NameAt<H>(w: World<H>, c: Config<H>): string { w.name(HostOf(c)).1 }

  /** How many steps the run had taken when it last asked. */
  datatype Clock = Clock(step: nat)

  /** The host of this world only keeps a clock; what it says is what w says in the run from a. */
  ghost function Oracle<H>(w: World<H>, prog: seq<IR>, a: Config<H>): World<Clock> {
    hide *;
    World((k: Clock, p: nat, c: CallRecord) =>
            var i := AskFrom(w, prog, a, k.step); (Clock(i + 1), AnswerTo(w, prog, RunN(w, prog, a, i))),
          (k: Clock) => var i := AskFrom(w, prog, a, k.step); (Clock(i + 1), NameAt(w, RunN(w, prog, a, i))),
          w.text)
  }

  lemma OracleBlind<H>(w: World<H>, prog: seq<IR>, a: Config<H>)
    ensures PositionBlind(Oracle(w, prog, a))
  {
    hide RunN, Asked;
  }

  lemma {:induction false} AskedNow<H>(w: World<H>, prog: seq<IR>, a: Config<H>, k: nat, i: nat)
    requires NextAsk(w, prog, a, k, i)
    ensures AskFrom(w, prog, a, k) == i
  {
    hide RunN, Asks;
  }

  // ---------- side by side ----------

  /** Step i of the run, and the oracle at the same place, which has not been asked since step k. */
  ghost predicate Beside<H>(w: World<H>, prog: seq<IR>, a: Config<H>, i: nat, t: Config<Clock>) {
    hide *;
    var c := RunN(w, prog, a, i);
    (c.Failed? && t.Failed?)
    || (c.Run? && t.Run? && c.pc == t.pc && c.st.stack == t.st.stack && c.st.env == t.st.env && t.st.h.step <= i
        && forall j: nat :: t.st.h.step <= j < i ==> !Asks(w, prog, RunN(w, prog, a, j)))
  }

  lemma {:induction false} RunNext<H>(w: World<H>, prog: seq<IR>, a: Config<H>, i: nat)
    ensures hide *; RunN(w, prog, a, i + 1) == Step(w, prog, RunN(w, prog, a, i))
  {
    hide Step;
    RunNPlus(w, prog, a, i, 1);
    assert RunN(w, prog, RunN(w, prog, a, i), 1) == RunN(w, prog, Step(w, prog, RunN(w, prog, a, i)), 0);
  }

  lemma {:induction false} AskBeside<H>(w: World<H>, prog: seq<IR>, a: Config<H>, i: nat, t: Config<Clock>)
    requires hide *; Beside(w, prog, a, i, t) && Asks(w, prog, RunN(w, prog, a, i))
    ensures Beside(w, prog, a, i + 1, Step(Oracle(w, prog, a), prog, t))
  {
    hide Exec, FindLabel, AsInstanceVariable, Asked, RunN, AskFrom, StrVT, AnswerValue;
    var c := RunN(w, prog, a, i);
    var v := Oracle(w, prog, a);
    RunNext(w, prog, a, i);
    AskedNow(w, prog, a, t.st.h.step, i);
    if prog[c.pc].InvokeFunction? {
      InvokeAsks(w, prog[c.pc], c.pc + 1, c.st);
      InvokeAsks(v, prog[c.pc], t.pc + 1, t.st);
    } else {
      NameAsks(w, prog[c.pc], c.pc + 1, c.st);
      NameAsks(v, prog[c.pc], t.pc + 1, t.st);
    }
  }

  lemma {:induction false} QuietBeside<H>(w: World<H>, prog: seq<IR>, a: Config<H>, i: nat, t: Config<Clock>)
    requires hide *; Beside(w, prog, a, i, t) && !Asks(w, prog, RunN(w, prog, a, i))
    ensures Beside(w, prog, a, i + 1, Step(Oracle(w, prog, a), prog, t))
  {
    hide Exec, FindLabel, AsInstanceVariable, Asked, RunN, AskFrom, AnswerTo, Names;
    var c := RunN(w, prog, a, i);
    var v := Oracle(w, prog, a);
    RunNext(w, prog, a, i);
    if c.Run? && c.pc < |prog| {
      var ir := prog[c.pc];
      if ir.InvokeFunction? {
        InvokeAsks(w, ir, c.pc + 1, c.st);
        InvokeAsks(v, ir, t.pc + 1, t.st);
      } else if ir.GenerateName? {
        NameAsks(w, ir, c.pc + 1, c.st);
        NameAsks(v, ir, t.pc + 1, t.st);
      } else {
        ExecAlike(w, v, ir, c.pc + 1, t.pc + 1, c.st.stack, c.st.env, c.st.h, t.st.h);
        assert State(c.st.stack, c.st.env, c.st.h) == c.st && State(t.st.stack, t.st.env, t.st.h) == t.st;
      }
    }
  }

  /** The oracle keeps beside the run, step by step. */
  lemma {:induction false} RunsBeside<H>(w: World<H>, prog: seq<IR>, st: State<H>, i: nat)
    ensures hide *; var a := Run(0, st);
            Beside(w, prog, a, i, RunN(Oracle(w, prog, a), prog, Run(0, State(st.stack, st.env, Clock(0))), i))
    decreases i
  {
    hide Step, Oracle, Asks;
    var a := Run(0, st);
    var v, t := Oracle(w, prog, a), Run(0, State(st.stack, st.env, Clock(0)));
    if i > 0 {
      RunsBeside(w, prog, st, i - 1);
      RunNext(v, prog, t, i - 1);
      if Asks(w, prog, RunN(w, prog, a, i - 1)) {
        AskBeside(w, prog, a, i - 1, RunN(v, prog, t, i - 1));
      } else {
        QuietBeside(w, prog, a, i - 1, RunN(v, prog, t, i - 1));
      }
    }
  }

  /** Whatever the oracle's run comes to, the run in the world comes to, but for the hosts. */
  lemma {:induction false} SameEnd<H>(w: World<H>, prog: seq<IR>, st: State<H>, i: nat)
    ensures hide *;
            var c, t := RunN(w, prog, Run(0, st), i), RunN(Oracle(w, prog, Run(0, st)), prog, Run(0, State(st.stack, st.env, Clock(0))), i);
            && (c.Failed? <==> t.Failed?)
            && (c.Run? && t.Run? ==> c.pc == t.pc && c.st.stack == t.st.stack && c.st.env == t.st.env)
  {
    hide Step, Oracle, Asks, RunN;
    RunsBeside(w, prog, st, i);
  }

  // ===== The main results about compiled programs.

  /** A compiled program, run from any stack and any variables, ends behind its last instruction with the value of the
      expression on top of the old stack, the variables and the host the expression leads to; or with an error after
      the same host calls, exactly when the expression has no meaning. */
  lemma CompiledMeaning<H(!new)>(w: World<H>, e: Expr, st: State<H>)
    requires hide *; PositionBlind(w) && Discipline(e).Some? && Gen(e, 0).Ok?
    ensures var code := Gen(e, 0).value.code;
            Leads(w, code, Run(0, st), st.stack, |code|, Eval(w, e, st.env, st.h), Discipline(e).value)
  {
    hide PositionBlind, Discipline, Gen, Leads, Eval;
    ByteCode.GenLabels(e, 0);
    var code := Gen(e, 0).value.code;
    Simulates(w, code, e, 0, 0, st);
  }

  /** When the discipline finds nothing left behind, the old stack lies directly below the value. */
  lemma NeatMeaning<H(!new)>(w: World<H>, e: Expr, st: State<H>)
    requires hide *; PositionBlind(w) && Neat(Discipline(e)) && Gen(e, 0).Ok?
    ensures var code := Gen(e, 0).value.code; var o := Eval(w, e, st.env, st.h);
            match o
            case Fault(h) => Reach(w, code, Run(0, st), Failed(h))
            case Done(v, env, h) => v.Some? && Reach(w, code, Run(0, st), Run(|code|, State(st.stack + [v.value], env, h)))
  {
    hide PositionBlind, Discipline, Gen, Leads, Eval, Reach;
    CompiledMeaning(w, e, st);
    var code := Gen(e, 0).value.code;
    var o := Eval(w, e, st.env, st.h);
    var junk := Left(w, code, Run(0, st), st.stack, |code|, o, Discipline(e).value);
    if o.Done? {
      assert st.stack + [] + [o.v.value] == st.stack + [o.v.value];
    }
  }

  /** Every jump of a compiled program finds its label, and it is the only one with that index. */
  lemma JumpsLand(e: Expr, i: nat)
    requires hide GenChunks, PlanOf;
             Gen(e, 0).Ok? && i < |Gen(e, 0).value.code| && ByteCode.IsJump(Gen(e, 0).value.code[i])
    ensures var code := Gen(e, 0).value.code; var at := FindLabel(code, code[i].target);
            at.Some? && forall j :: 0 <= j < |code| && code[j] == Label(code[i].target) ==> j == at.value
  {
    hide Gen;
    ByteCode.GenLabels(e, 0);
    var code := Gen(e, 0).value.code;
    assert code[i] in code;
  }

  // ---------- the last instruction of an expression with a value ----------

  ghost predicate EndsInValue(code: seq<IR>) { code != [] && !code[|code| - 1].AssignVar? }

  ghost predicate NoBindings(code: seq<IR>) { forall x :: x in code ==> !x.AssignVar? }

  lemma LeafTailEnds(e: Expr)
    requires hide *; e.kind.Atom? && PlanOf(e, 0).Parts?
    ensures NoBindings(TailOf(PlanOf(e, 0))) && TailOf(PlanOf(e, 0)) != []
  {
    hide WitOf, NumberAs, Weight, MatchPlan, CallPlan, SelectPlan;
    assert PlanOf(e, 0).chunks == [];
  }

  lemma UnaryTailEnds(e: Expr)
    requires hide *; e.kind.Unary? && PlanOf(e, 0).Parts?
    ensures NoBindings(TailOf(PlanOf(e, 0))) && TailOf(PlanOf(e, 0)) != []
  {
    hide WitOf, Weight, ByteCode.Tails, LeafPlan, CallPlan;
    var p := PlanOf(e, 0);
    ByteCode.SmallTails(p.chunks[0], p.chunks[0], p.chunks[0]);
    assert p.chunks == [p.chunks[0]];
  }

  lemma RangeTailEnds(e: Expr)
    requires hide *; e.kind.Range? && PlanOf(e, 0).Parts?
    ensures NoBindings(TailOf(PlanOf(e, 0))) && TailOf(PlanOf(e, 0)) != []
  {
    hide WitOf, PlanOf, TailOf, Sets;
    RangeTailIs(e);
    RangeSets();
  }

  lemma PlainTailIs(e: Expr)
    requires hide *; PlanOf(e, 0).Parts? && IsStrict(e) && !e.kind.Unary? && !e.kind.Range?
    ensures TailOf(PlanOf(e, 0)) == PlanOf(e, 0).tail
  {
    hide PlanOf, IsStrict, Ops, ByteCode.Tails;
    StrictPlan(e, 0);
    ByteCode.TailsOfPlainly(Ops(e));
  }

  lemma CallPlanEnds(ct: CallType, args: seq<Expr>, ty: InferredType)
    requires hide *; CallPlan(ct, args, ty).Parts?
    ensures NoBindings(CallPlan(ct, args, ty).tail)
    ensures CallPlan(ct, args, ty).tail == [] ==> ct.WorkerCreation?
  {
    hide WitOf, Weight, Reverse, WeightAll, CallReceiver, IsUnit;
  }

  lemma CallTailEnds(e: Expr)
    requires hide *; e.kind.Call? && PlanOf(e, 0).Parts?
    ensures NoBindings(TailOf(PlanOf(e, 0)))
    ensures TailOf(PlanOf(e, 0)) == [] ==> e.kind.callType.WorkerCreation?
  {
    hide WitOf, Weight, TailOf, CallPlan, NoBindings, MatchPlan, RecordPlan, LeafPlan, SelectPlan;
    PlainTailIs(e);
    CallPlanEnds(e.kind.callType, e.kind.args, e.ty);
  }

  lemma OperatorTailEnds(e: Expr)
    requires hide *;
             (e.kind.Binary? || e.kind.Record? || e.kind.ListOf? || e.kind.SelectIndex?) && IsStrict(e) && PlanOf(e, 0).Parts?
    ensures NoBindings(TailOf(PlanOf(e, 0))) && TailOf(PlanOf(e, 0)) != []
  {
    hide WitOf, Weight, TailOf, MatchPlan, LeafPlan, CallPlan;
    PlainTailIs(e);
    if e.kind.Record? {
      UpdatesBindNothing(e.kind.fields);
    }
  }

  lemma StrictTailEnds(e: Expr)
    requires hide *; IsStrict(e) && PlanOf(e, 0).Parts?
    ensures NoBindings(TailOf(PlanOf(e, 0)))
    ensures TailOf(PlanOf(e, 0)) == [] ==> e.kind.Call? && e.kind.callType.WorkerCreation?
  {
    hide PlanOf, TailOf, NoBindings;
    match e.kind
    case Atom(_) => LeafTailEnds(e);
    case Unary(_, _) => UnaryTailEnds(e);
    case Range(_, _, _) => RangeTailEnds(e);
    case Call(_, _) => CallTailEnds(e);
    case _ => OperatorTailEnds(e);
  }

  lemma UpdatesBindNothing(fs: seq<Field<Expr>>)
    ensures NoBindings(Updates(fs))
  {
  }

  lemma {:induction false} ValueCodeEnds(e: Expr, n: nat)
    requires hide *; Gen(e, n).Ok? && Yields(Discipline(e))
    ensures EndsInValue(Gen(e, n).value.code)
    decreases Weight(e)
  {
    hide Gen, GenChunks, PlanOf, Weight, Discipline, OperandDiscipline, BlockDiscipline, TailOf, WeightAll, AsCond,
         Ops, ChunksWeight, WitOf, LoopHead;
    if IsStrict(e) {
      StrictCode(e, n);
      StrictTailEnds(e);
      var tail := TailOf(PlanOf(e, 0));
      if tail == [] {
        var x := WorkerOperand(e, n);
        ValueCodeEnds(x, n);
      } else {
        assert tail[|tail| - 1] in tail;
      }
    } else {
      match e.kind
      case Binary(_, _, _) =>
        LogicalCode(e, n);
        DisciplineAsCond(e);
        ValueCodeEnds(AsCond(e), n);
      case Block(es) =>
        var last := LastStatement(e, n);
        ValueCodeEnds(last, n);
      case Cond(_, _, _) => CondEnds(e, n);
      case PatternMatch(_, _) =>
        RewrittenCode(e, n);
        ValueCodeEnds(PlanOf(e, 0).to, n);
      case SelectIndex(_, _) =>
        RewrittenCode(e, n);
        ValueCodeEnds(PlanOf(e, 0).to, n);
      case Comprehension(_, _, _) => var gi, gb := ComprehensionCode(e, n);
      case Reduce(_, _, _, _, _) => var gi, gs, gb := ReductionCode(e, n);
      case Let(_, _) => DisciplineLet(e);
      case InvokeMethodLazy(_, _, _) => LazyDiscipline(e);
    }
  }

  /** The only operator without instructions of its own has one operand. */
  lemma WorkerOperand(e: Expr, n: nat) returns (x: Expr)
    requires hide *; Gen(e, n).Ok? && Yields(Discipline(e)) && e.kind.Call? && e.kind.callType.WorkerCreation?
    requires TailOf(PlanOf(e, 0)) == []
    ensures Gen(x, n).Ok? && Gen(e, n).value.code == Gen(x, n).value.code && Yields(Discipline(x)) && Weight(x) < Weight(e)
  {
    hide Gen, GenChunks, PlanOf, Weight, Discipline, OperandDiscipline, TailOf, WitOf, CasePayload, Plainly,
         LabelFree;
    StrictCode(e, n);
    DisciplineStrict(e);
    OpsShrink(e);
    assert |Ops(e)| == 1;
    x := Ops(e)[0];
    assert Ops(e) == [] + [x];
    DisciplineLastOperand([], x);
    OneWeighs(x);
    assert Plainly(Ops(e)) == [Chunk(x, [])];
    OneChunk(x, n);
    assert Gen(x, n).value.code + [] == Gen(x, n).value.code;
  }

  lemma OneWeighs(x: Expr)
    ensures WeightAll([x]) == Weight(x)
  {
    hide Weight;
    assert [x][1..] == [];
  }

  lemma LastStatement(e: Expr, n: nat) returns (last: Expr)
    requires hide *; Gen(e, n).Ok? && Yields(Discipline(e)) && e.kind.Block?
    ensures Gen(last, n).Ok? && Yields(Discipline(last)) && Weight(last) < Weight(e)
    ensures EndsInValue(Gen(last, n).value.code) ==> EndsInValue(Gen(e, n).value.code)
  {
    hide Gen, GenChunks, PlanOf, Weight, Discipline, BlockDiscipline, WeightAll;
    var es := e.kind.exprs;
    BlockCode(e, n);
    BlockStatic(e);
    EmptyDiscipline();
    var front := es[..|es| - 1];
    last := es[|es| - 1];
    assert es == front + [last];
    DisciplineLastStatement(front, last);
    ByteCode.LastChunk(front, last, n);
    WeightLast(es);
  }

  lemma EmptyDiscipline()
    ensures BlockDiscipline([]) == Some(Shape(false, false, false))
  {
    hide Discipline;
  }

  lemma BlockStatic(e: Expr)
    requires hide *; e.kind.Block?
    ensures Discipline(e) == BlockDiscipline(e.kind.exprs) && WeightAll(e.kind.exprs) < Weight(e)
  {
    hide PlanOf, Ops, OperandDiscipline, BlockDiscipline, WeightAll, ArgsFit, ChunksWeight;
  }

  lemma CondEnds(e: Expr, n: nat)
    requires hide *; e.kind.Cond? && Gen(e, n).Ok?
    ensures EndsInValue(Gen(e, n).value.code)
  {
    hide Gen, Weight, ByteCode.After;
    var code := Gen(e, n).value.code;
    var gc, gl, gr := CondLayout(code, 0, e, n);
  }

  lemma RewrittenCode(e: Expr, n: nat)
    requires hide *; e.kind.PatternMatch? || (e.kind.SelectIndex? && !IsStrict(e))
    requires Discipline(e).Some?
    ensures PlanOf(e, 0).Rewrite? && Gen(e, n) == Gen(PlanOf(e, 0).to, n) && Discipline(e) == Discipline(PlanOf(e, 0).to)
    ensures Weight(PlanOf(e, 0).to) < Weight(e)
  {
    hide Weight, PlanOf, Gen, Discipline, GenChunks;
    RewritePlan(e, n);
    DisciplineRewritten(e);
    GenUnfold(e, n);
    PlanShrinks(e, n);
  }

  lemma LazyDiscipline(e: Expr)
    requires e.kind.InvokeMethodLazy?
    ensures Discipline(e) == Some(Shape(false, false, false))
  {
    hide Weight, BlockDiscipline, OperandDiscipline, PlanOf, ArgsFit;
  }

  // ---------- compiler and interpreter together ----------

  /** The answer to a program whose expression has a value. */
  function AnswerOf<H>(o: Outcome<H>): Option<RibResult> {
    match o
    case Done(Some(Val(vt)), _, _) => Some(RibVal(vt))
    case Done(_, _, _) => Some(RibUnit)
    case Fault(_) => None
  }

  lemma {:induction false} FinishesWith<H>(prog: seq<IR>, junk: seq<StackValue>, v: StackValue, env: Env, h: H)
    requires hide *; EndsInValue(prog) && Plainish(v)
    ensures Finish(prog, Run(|prog|, State([] + junk + [v], env, h))) == AnswerOf(Done(Some(v), env, h))
  {
  }

  /** Compiling with the worklist and running with the interpreter loop gives the value the expression has with the answers
      the host gives; if the host does not look at positions, that is the value of the expression in its world, and the
      host is left as the calls of the expression leave it. */
  method Evaluate<H(!new)>(w: World<H>, e: Expr, input: Env, h: H) returns (r: Result<Option<RibResult>, GenError>, after: H)
    requires hide *; Yields(Discipline(e))
    ensures r.Err? <==> Gen(e, 0).Err?
    ensures r.Err? ==> r.error == Gen(e, 0).error && after == h
    ensures r.Ok? ==> r.value == AnswerOf(Eval(AnswersIn(w, e, State([], input, h)), e, input, Clock(0)))
    ensures r.Ok? && PositionBlind(w) ==> r.value == AnswerOf(Eval(w, e, input, h)) && after == Eval(w, e, input, h).h
  {
    hide PositionBlind, Discipline, Gen, Leads, Eval, RunN, Finish, Leads, AnswersIn;
    var code := FromExpr(e);
    if code.Err? {
      return Err(code.error), h;
    }
    ghost var steps := HaltsAnywhere(w, e, input, h);
    var result;
    result, after := Interpret(w, code.value, input, h, steps);
    r := Ok(result);
  }

  /** The answers the host gives while the program of an expression runs. */
  ghost function AnswersIn<H>(w: World<H>, e: Expr, st: State<H>): World<Clock>
    requires hide *; Gen(e, 0).Ok?
  {
    Oracle(w, Gen(e, 0).value.code, Run(0, st))
  }

  /** In every world, also one that looks at positions, a disciplined program comes to an end. */
  lemma DisciplinedEnds<H(!new)>(w: World<H>, e: Expr, st: State<H>) returns (steps: nat)
    requires hide *; Discipline(e).Some? && Gen(e, 0).Ok?
    ensures Halted(Gen(e, 0).value.code, RunN(w, Gen(e, 0).value.code, Run(0, st), steps))
  {
    hide PositionBlind, Discipline, Gen, Eval, RunN, Oracle, Fits;
    var code := Gen(e, 0).value.code;
    var v, t := Oracle(w, code, Run(0, st)), State(st.stack, st.env, Clock(0));
    OracleBlind(w, code, Run(0, st));
    CompiledMeaning(v, e, t);
    match Eval(v, e, st.env, Clock(0)) {
      case Fault(k) => steps :| RunN(v, code, Run(0, t), steps) == Failed(k);
      case Done(x, env, k) =>
        var junk :| Fits(x, junk, Discipline(e).value) && Reach(v, code, Run(0, t), Run(|code|, State(st.stack + junk + Opt(x), env, k)));
        steps :| RunN(v, code, Run(0, t), steps) == Run(|code|, State(st.stack + junk + Opt(x), env, k));
    }
    SameEnd(w, code, st, steps);
  }

  lemma HaltsAnywhere<H(!new)>(w: World<H>, e: Expr, input: Env, h: H) returns (steps: nat)
    requires hide *; Yields(Discipline(e)) && Gen(e, 0).Ok?
    ensures var code := Gen(e, 0).value.code; var end := RunN(w, code, Run(0, State([], input, h)), steps);
            && Halted(code, end)
            && Finish(code, end) == AnswerOf(Eval(AnswersIn(w, e, State([], input, h)), e, input, Clock(0)))
            && (PositionBlind(w) ==> Finish(code, end) == AnswerOf(Eval(w, e, input, h)) && HostOf(end) == Eval(w, e, input, h).h)
  {
    hide PositionBlind, Discipline, Gen, Eval, RunN, Finish, Oracle;
    var code := Gen(e, 0).value.code;
    var st := State([], input, h);
    OracleBlind(w, code, Run(0, st));
    var v := Oracle(w, code, Run(0, st));
    steps := Halts(v, e, input, Clock(0));
    SameEnd(w, code, st, steps);
    SameFinish(code, RunN(w, code, Run(0, st), steps), RunN(v, code, Run(0, State([], input, Clock(0))), steps));
    if PositionBlind(w) {
      var n := Halts(w, e, input, h);
      HaltsOnce(w, code, Run(0, st), steps, n);
    }
  }

  lemma SameFinish<H, K>(prog: seq<IR>, a: Config<H>, b: Config<K>)
    requires hide *; a.Failed? <==> b.Failed?
    requires a.Run? && b.Run? ==> a.st.stack == b.st.stack
    ensures Finish(prog, a) == Finish(prog, b)
  {
  }

  lemma Halts<H(!new)>(w: World<H>, e: Expr, input: Env, h: H) returns (steps: nat)
    requires hide *; PositionBlind(w) && Yields(Discipline(e)) && Gen(e, 0).Ok?
    ensures var end := RunN(w, Gen(e, 0).value.code, Run(0, State([], input, h)), steps);
            && Halted(Gen(e, 0).value.code, end)
            && Finish(Gen(e, 0).value.code, end) == AnswerOf(Eval(w, e, input, h)) && HostOf(end) == Eval(w, e, input, h).h
  {
    hide PositionBlind, Discipline, Gen, Leads, Eval, RunN, Finish;
    var code := Gen(e, 0).value.code;
    var st := State([], input, h);
    CompiledMeaning(w, e, st);
    ValueCodeEnds(e, 0);
    var o := Eval(w, e, input, h);
    var junk := Left(w, code, Run(0, st), [], |code|, o, Discipline(e).value);
    if o.Done? {
      FinishesWith(code, junk, o.v.value, o.env, o.h);
      steps :| RunN(w, code, Run(0, st), steps) == Run(|code|, State([] + junk + [o.v.value], o.env, o.h));
    } else {
      steps :| RunN(w, code, Run(0, st), steps) == Failed(o.h);
      FailedFinish(code, o.h);
    }
  }

  lemma FailedFinish<H>(prog: seq<IR>, h: H)
    ensures Finish(prog, Failed(h)) == None
  {
  }
}
