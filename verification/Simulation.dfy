/** Generated code computes what expressions mean. */
module Simulation {
  import opened Syntax
  import opened Values
  import opened Machine
  import opened ByteCode
  import opened Evaluation
  import opened Running

  // ---------- unfolding, one kind at a time ----------

  function CombineAll<H>(w: World<H>, e: Expr, r: Outcomes<H>): Outcome<H>
    requires hide *; IsStrict(e)
  {
    match r
    case AllFault(h) => Fault(h)
    case AllDone(vs, env, h) =>
      if |vs| != |Ops(e)| then Fault(h) else
      match Combine(w, e, Reverse(vs), env, h)
      case Answer(v, h2) => Done(Some(v), env, h2)
      case NoAnswer(h2) => Fault(h2)
  }

  lemma {:induction false} EvalStrict<H>(w: World<H>, e: Expr, env: Env, h: H)
    requires hide *; IsStrict(e)
    ensures Eval(w, e, env, h) == CombineAll(w, e, EvalAll(w, Ops(e), env, h))
  {
    hide Combine, EvalAll, Ops, IsStrict, Collect, EvalBlock, Fold, PlanOf, Truth, ChunksWeight, WitOf, Iterated;
  }

  lemma {:induction false} DisciplineStrict(e: Expr)
    requires hide *; IsStrict(e) && Discipline(e).Some?
    ensures OperandDiscipline(Ops(e)).Some?
    ensures Discipline(e).value == Shape(true, OperandDiscipline(Ops(e)).value, SolidResult(e))
    ensures e.kind.Call? ==> ArgsFit(e.kind.callType, e.kind.args, e.ty)
  {
    hide OperandDiscipline, Ops, IsStrict, ArgsFit, SolidResult, BlockDiscipline, PlanOf;
  }

  // ---------- expressions with operands ----------

  ghost predicate LeadsAll<H(!new)>(w: World<H>, prog: seq<IR>, a: Config<H>, base: seq<StackValue>, to: nat,
                                    out: Outcomes<H>, junky: bool) {
    match out
    case AllFault(h) => Reach(w, prog, a, Failed(h))
    case AllDone(vs, env, h) =>
      && (forall v :: v in vs ==> Plainish(v))
      && exists junk :: NoSinks(junk) && (!junky ==> junk == []) && Reach(w, prog, a, Run(to, State(base + junk + vs, env, h)))
  }

  /** After the operands the combining instructions leave the value of the expression. */
  lemma StrictLeads<H(!new)>(w: World<H>, prog: seq<IR>, e: Expr, a: Config<H>, base: seq<StackValue>, pc: nat,
                             out: Outcomes<H>, junky: bool)
    requires hide *; PositionBlind(w) && IsStrict(e) && PlanOf(e, 0).Parts?
    requires At(prog, pc, TailOf(PlanOf(e, 0))) && ByteCode.LabelFree(TailOf(PlanOf(e, 0)))
    requires e.kind.Call? ==> ArgsFit(e.kind.callType, e.kind.args, e.ty)
    requires LeadsAll(w, prog, a, base, pc, out, junky) && (out.AllDone? ==> |out.vs| == |Ops(e)|)
    ensures Leads(w, prog, a, base, pc + |TailOf(PlanOf(e, 0))|, CombineAll(w, e, out), Shape(true, junky, SolidResult(e)))
  {
    hide Combine, PlanOf, TailOf, ExecAll, IsStrict, Ops, ArgsFit, PositionBlind, SolidResult, ByteCode.LabelFree,
         Reach, At, Reverse;
    match out
    case AllFault(h) =>
    case AllDone(vs, env, h) =>
      var junk :| NoSinks(junk) && (!junky ==> junk == []) && Reach(w, prog, a, Run(pc, State(base + junk + vs, env, h)));
      var tail := TailOf(PlanOf(e, 0));
      var st := State((base + junk) + vs, env, h);
      StrictTail(w, e, base + junk, vs, env, h);
      StraightRun(w, prog, pc, tail, st);
      CombinePlain(w, e, Reverse(vs), env, h);
      match Combine(w, e, Reverse(vs), env, h)
      case NoAnswer(h2) => ReachTrans(w, prog, a, Run(pc, st), Failed(h2));
      case Answer(v, h2) =>
        var end := Run(pc + |tail|, State(base + junk + [v], env, h2));
        ReachTrans(w, prog, a, Run(pc, st), end);
        assert Fits(Some(v), junk, Shape(true, junky, SolidResult(e)));
  }

  // ---------- jumps ----------

  lemma AfterJump<H(!new)>(w: World<H>, prog: seq<IR>, a: Config<H>, base: seq<StackValue>, pc: nat, target: nat,
                           out: Outcome<H>, sh: Shape)
    requires hide *; Leads(w, prog, a, base, pc, out, sh)
    requires ByteCode.Unique(prog) && pc < |prog| && target < |prog| && prog[pc].Jump? && prog[target] == Label(prog[pc].target)
    ensures Leads(w, prog, a, base, target + 1, out, sh)
  {
    hide Leads, Reach, ByteCode.Unique;
    if out.Done? {
      forall junk | Fits(out.v, junk, sh)
        ensures Reach(w, prog, Run(pc, State(base + junk + Opt(out.v), out.env, out.h)),
                      Run(target + 1, State(base + junk + Opt(out.v), out.env, out.h)))
      {
        JumpReaches(w, prog, pc, State(base + junk + Opt(out.v), out.env, out.h), target);
      }
    }
    LeadsTo(w, prog, a, base, pc, target + 1, out, sh);
  }

  lemma AfterLabel<H(!new)>(w: World<H>, prog: seq<IR>, a: Config<H>, base: seq<StackValue>, pc: nat,
                            out: Outcome<H>, sh: Shape)
    requires hide *; Leads(w, prog, a, base, pc, out, sh)
    requires pc < |prog| && prog[pc].Label?
    ensures Leads(w, prog, a, base, pc + 1, out, sh)
  {
    hide Leads, Reach;
    if out.Done? {
      forall junk | Fits(out.v, junk, sh)
        ensures Reach(w, prog, Run(pc, State(base + junk + Opt(out.v), out.env, out.h)),
                      Run(pc + 1, State(base + junk + Opt(out.v), out.env, out.h)))
      {
        LabelReaches(w, prog, pc, State(base + junk + Opt(out.v), out.env, out.h));
      }
    }
    LeadsTo(w, prog, a, base, pc, pc + 1, out, sh);
  }

  // ---------- layouts ----------

  lemma TwoChunks(a: Chunk, b: Chunk, n: nat)
    requires hide *; GenChunks([a, b], n).Ok?
    ensures Gen(b.e, n).Ok? && Gen(a.e, Gen(b.e, n).value.last).Ok?
    ensures GenChunks([a, b], n).value.code
            == Gen(a.e, Gen(b.e, n).value.last).value.code + a.tail + (Gen(b.e, n).value.code + b.tail)
  {
    hide Gen, Weight;
    assert [a, b][..1] == [a] && [a][..0] == [];
    var m := Gen(b.e, n).value.last;
    assert GenChunks([], Gen(a.e, m).value.last).Ok?;
  }

  lemma {:induction false} ThreeChunks(a: Chunk, b: Chunk, c: Chunk, n: nat)
    requires hide *; GenChunks([a, b, c], n).Ok?
    ensures Gen(c.e, n).Ok? && Gen(b.e, Gen(c.e, n).value.last).Ok?
    ensures Gen(a.e, Gen(b.e, Gen(c.e, n).value.last).value.last).Ok?
    ensures GenChunks([a, b, c], n).value.code
            == Gen(a.e, Gen(b.e, Gen(c.e, n).value.last).value.last).value.code + a.tail
               + (Gen(b.e, Gen(c.e, n).value.last).value.code + b.tail) + (Gen(c.e, n).value.code + c.tail)
  {
    hide Gen, Weight;
    assert [a, b, c][..2] == [a, b];
    TwoChunks(a, b, Gen(c.e, n).value.last);
  }

  lemma CondPlan(e: Expr, n: nat)
    requires hide *; e.kind.Cond?
    ensures PlanOf(e, n) == Parts(CondChunks(e.kind.cond, e.kind.lhs, e.kind.rhs, n), [], 2)
  {
    hide MatchPlan, LeafPlan, CallPlan, SelectPlan, WitOf;
  }

  lemma {:induction false} CondCode(e: Expr, n: nat) returns (gc: Code, gl: Code, gr: Code)
    requires hide *; e.kind.Cond? && Gen(e, n).Ok?
    ensures Gen(e.kind.rhs, n + 2) == Ok(gr) && Gen(e.kind.lhs, gr.last) == Ok(gl) && Gen(e.kind.cond, gl.last) == Ok(gc)
    ensures Gen(e, n).value.code
            == gc.code + [JumpIfFalse(n + 1)] + (gl.code + [Jump(n + 2), Label(n + 1)]) + (gr.code + [Label(n + 2)])
  {
    hide Gen, Weight, PlanOf, GenChunks;
    var Cond(c, l, r) := e.kind;
    GenUnfold(e, n);
    CondPlan(e, n);
    var cs := CondChunks(c, l, r, n);
    assert cs == [cs[0], cs[1], cs[2]];
    ThreeChunks(cs[0], cs[1], cs[2], n + 2);
    gr := Gen(r, n + 2).value;
    gl := Gen(l, gr.last).value;
    gc := Gen(c, gl.last).value;
    assert Gen(e, n).value.code == GenChunks(cs, n + 2).value.code + [];
  }

  /** Where the pieces of a conditional are. */
  lemma {:induction false} CondLayout(prog: seq<IR>, pc: nat, e: Expr, n: nat) returns (gc: Code, gl: Code, gr: Code)
    requires hide *; e.kind.Cond? && Gen(e, n).Ok? && At(prog, pc, Gen(e, n).value.code)
    ensures Gen(e.kind.rhs, n + 2) == Ok(gr) && Gen(e.kind.lhs, gr.last) == Ok(gl) && Gen(e.kind.cond, gl.last) == Ok(gc)
    ensures |Gen(e, n).value.code| == |gc.code| + |gl.code| + |gr.code| + 4
    ensures var p1 := pc + |gc.code|; var p2 := p1 + 1 + |gl.code|; var p3 := p2 + 2 + |gr.code|;
            && p3 < |prog|
            && At(prog, pc, gc.code) && prog[p1] == JumpIfFalse(n + 1)
            && At(prog, p1 + 1, gl.code) && prog[p2] == Jump(n + 2) && prog[p2 + 1] == Label(n + 1)
            && At(prog, p2 + 2, gr.code) && prog[p3] == Label(n + 2)
  {
    hide Gen, At;
    gc, gl, gr := CondCode(e, n);
    Pieces3(prog, pc, gc.code, [JumpIfFalse(n + 1)], gl.code, [Jump(n + 2), Label(n + 1)], gr.code, [Label(n + 2)]);
    AtOne(prog, pc + |gc.code|, JumpIfFalse(n + 1));
    AtTwo(prog, pc + |gc.code| + 1 + |gl.code|, Jump(n + 2), Label(n + 1));
    AtOne(prog, pc + |gc.code| + 1 + |gl.code| + 2 + |gr.code|, Label(n + 2));
  }

  lemma AtOne(prog: seq<IR>, pc: nat, ir: IR)
    requires hide *; At(prog, pc, [ir])
    ensures pc < |prog| && prog[pc] == ir
  {
    assert prog[pc + 0] == [ir][0];
  }

  lemma {:induction false} AtTwo(prog: seq<IR>, pc: nat, a: IR, b: IR)
    requires hide *; At(prog, pc, [a, b])
    ensures pc + 1 < |prog| && prog[pc] == a && prog[pc + 1] == b
  {
    assert prog[pc + 0] == [a, b][0] && prog[pc + 1] == [a, b][1];
  }

  lemma {:induction false} Pieces2(prog: seq<IR>, pc: nat, a: seq<IR>, s: seq<IR>, b: seq<IR>, t: seq<IR>)
    requires hide *; At(prog, pc, a + s + (b + t))
    ensures At(prog, pc, a) && At(prog, pc + |a|, s) && At(prog, pc + |a| + |s|, b) && At(prog, pc + |a| + |s| + |b|, t)
  {
    hide At;
    AtSplit(prog, pc, a + s, b + t);
    AtSplit(prog, pc, a, s);
    AtSplit(prog, pc + |a + s|, b, t);
  }

  lemma {:induction false} Pieces3(prog: seq<IR>, pc: nat, a: seq<IR>, s: seq<IR>, b: seq<IR>, t: seq<IR>, c: seq<IR>,
                                   u: seq<IR>)
    requires hide *; At(prog, pc, a + s + (b + t) + (c + u))
    ensures At(prog, pc, a) && At(prog, pc + |a|, s) && At(prog, pc + |a| + |s|, b) && At(prog, pc + |a| + |s| + |b|, t)
    ensures At(prog, pc + |a| + |s| + |b| + |t|, c) && At(prog, pc + |a| + |s| + |b| + |t| + |c|, u)
  {
    hide At;
    AtSplit(prog, pc, a + s + (b + t), c + u);
    Pieces2(prog, pc, a, s, b, t);
    AtSplit(prog, pc + |a + s + (b + t)|, c, u);
  }

  // ---------- the outcome of a sub-expression, continued ----------

  /** The value of an outcome, or an error when there is none. */
  predicate Gives<H>(o: Outcome<H>) { o.Done? && o.v.Some? }

  lemma {:induction false} EvalCond<H>(w: World<H>, e: Expr, env: Env, h: H)
    requires hide Eval, Weight; e.kind.Cond?
    ensures var o := Eval(w, e.kind.cond, env, h);
            Eval(w, e, env, h) == if !Gives(o) then Fault(o.h)
                                  else if IsBool(o.v.value, true) then Eval(w, e.kind.lhs, o.env, o.h)
                                  else if IsBool(o.v.value, false) then Eval(w, e.kind.rhs, o.env, o.h)
                                  else Fault(o.h)
  {
    hide Weight, PlanOf, Combine, EvalAll, EvalBlock, Collect, Fold, Truth, IsBool, Ops, ChunksWeight, WitOf,
         WeightAll, Iterated, MkVal;
  }

  lemma {:induction false} DisciplineCond(e: Expr)
    requires hide Discipline, Weight; e.kind.Cond? && Discipline(e).Some?
    ensures Yields(Discipline(e.kind.cond)) && Discipline(e.kind.lhs).Some? && Discipline(e.kind.rhs).Some?
    ensures var sc, sl, sr := Discipline(e.kind.cond).value, Discipline(e.kind.lhs).value, Discipline(e.kind.rhs).value;
            var sh := Discipline(e).value;
            if sl.value == sr.value
            then sh == Shape(sl.value, sc.junk || sl.junk || sr.junk, sl.solid && sr.solid)
            else IsThrow(e.kind.rhs) && sh == Shape(false, sc.junk || sl.junk, false)
  {
    hide Weight, PlanOf, OperandDiscipline, BlockDiscipline, Ops, ArgsFit, ChunksWeight;
  }

  /** A throw ends in an error. */
  lemma {:induction false} ThrowFaults<H>(w: World<H>, e: Expr, env: Env, h: H)
    requires IsThrow(e)
    ensures Eval(w, e, env, h) == Fault(h) && Discipline(e) == Some(Shape(true, false, true))
  {
    hide Weight, PlanOf, Eval, BinaryValue, UnaryValue, CallValue, ListValue;
    EvalStrict(w, e, env, h);
    assert Ops(e) == [] && Reverse<StackValue>([]) == [];
    assert EvalAll(w, [], env, h) == AllDone([], env, h);
  }

  /** An expression that yields a value and does not fail: what is left below it, for the code that follows. */
  lemma {:induction false} Left<H(!new)>(w: World<H>, prog: seq<IR>, a: Config<H>, base: seq<StackValue>, to: nat, out: Outcome<H>, sh: Shape)
      returns (junk: seq<StackValue>)
    requires hide *; Leads(w, prog, a, base, to, out, sh) && sh.value
    ensures out.Done? ==> out.v.Some? && Fits(out.v, junk, sh)
    ensures out.Done? ==> Reach(w, prog, a, Run(to, State(base + junk + [out.v.value], out.env, out.h)))
    ensures !out.Done? ==> Reach(w, prog, a, Failed(out.h))
  {
    hide Reach;
    if out.Done? {
      junk :| Fits(out.v, junk, sh) && Reach(w, prog, a, Run(to, State(base + junk + Opt(out.v), out.env, out.h)));
    } else {
      junk := [];
    }
  }

  // ---------- the simulation ----------

  /** The code of an expression stands at a place of a program. */
  ghost predicate Placed<H(!new)>(w: World<H>, prog: seq<IR>, e: Expr, n: nat, pc: nat) {
    hide *;
    && PositionBlind(w) && ByteCode.Unique(prog) && Discipline(e).Some?
    && Gen(e, n).Ok? && At(prog, pc, Gen(e, n).value.code)
  }

  /** From there the machine does what the expression means: the same value on top, the same variables, the same host;
      or an error after the same host calls. */
  ghost predicate Computes<H(!new)>(w: World<H>, prog: seq<IR>, e: Expr, n: nat, pc: nat, st: State<H>)
  {
    hide At, Eval, Discipline, GenChunks, PlanOf, ChunksWeight;
    && Placed(w, prog, e, n, pc)
    && Leads(w, prog, Run(pc, st), st.stack, pc + |Gen(e, n).value.code|, Eval(w, e, st.env, st.h), Discipline(e).value)
  }

  ghost predicate AllPlaced<H(!new)>(w: World<H>, prog: seq<IR>, es: seq<Expr>, n: nat, pc: nat) {
    hide *;
    && PositionBlind(w) && ByteCode.Unique(prog)
    && GenChunks(Plainly(es), n).Ok? && At(prog, pc, GenChunks(Plainly(es), n).value.code)
  }

  ghost predicate AllComputed<H(!new)>(w: World<H>, prog: seq<IR>, es: seq<Expr>, n: nat, pc: nat, st: State<H>)
  {
    hide At, EvalAll, OperandDiscipline, Gen;
    && AllPlaced(w, prog, es, n, pc) && OperandDiscipline(es).Some?
    && LeadsAll(w, prog, Run(pc, st), st.stack, pc + |GenChunks(Plainly(es), n).value.code|,
                EvalAll(w, es, st.env, st.h), OperandDiscipline(es).value)
  }

  lemma {:induction false} Simulates<H(!new)>(w: World<H>, prog: seq<IR>, e: Expr, n: nat, pc: nat, st: State<H>)
    requires Placed(w, prog, e, n, pc)
    ensures Computes(w, prog, e, n, pc, st)
    decreases Weight(e), 2, 0
  {
    hide Weight, Placed, Computes, Discipline, Gen, PlanOf, Eval, Leads, AllComputed, AllPlaced, EvalBlock, Ops;
    if IsStrict(e) {
      OpsShrink(e);
      OperandsPlaced(w, prog, e, n, pc);
      SimulatesAll(w, prog, Ops(e), n, pc, st);
      StrictComputes(w, prog, e, n, pc, st);
    } else {
      match e.kind
      case Binary(_, _, _) => SimulatesLogical(w, prog, e, n, pc, st);
      case Block(es) =>
        BlockPlaced(w, prog, e, n, pc, st);
        SimulatesBlock(w, prog, es, n, pc, st);
      case Let(_, _) => SimulatesLet(w, prog, e, n, pc, st);
      case Cond(_, _, _) => SimulatesCond(w, prog, e, n, pc, st);
      case PatternMatch(_, _) => SimulatesRewritten(w, prog, e, n, pc, st);
      case SelectIndex(_, _) => SimulatesRewritten(w, prog, e, n, pc, st);
      case Comprehension(_, _, _) => SimulatesComprehension(w, prog, e, n, pc, st);
      case Reduce(_, _, _, _, _) => SimulatesReduce(w, prog, e, n, pc, st);
      case InvokeMethodLazy(_, _, _) => LazyIs(w, prog, e, n, pc, st);
    }
  }

  lemma OperandsPlaced<H(!new)>(w: World<H>, prog: seq<IR>, e: Expr, n: nat, pc: nat)
    requires Placed(w, prog, e, n, pc) && IsStrict(e)
    ensures AllPlaced(w, prog, Ops(e), n, pc) && OperandDiscipline(Ops(e)).Some?
  {
    hide Discipline, Gen, GenChunks, PositionBlind, ByteCode.Unique, At, IsStrict, Ops, TailOf, OperandDiscipline,
         PlanOf, ArgsFit, ChunksWeight;
    StrictCode(e, n);
    DisciplineStrict(e);
    AtSplit(prog, pc, GenChunks(Plainly(Ops(e)), n).value.code, TailOf(PlanOf(e, 0)));
  }

  lemma StrictComputes<H(!new)>(w: World<H>, prog: seq<IR>, e: Expr, n: nat, pc: nat, st: State<H>)
    requires Placed(w, prog, e, n, pc) && IsStrict(e)
    requires AllPlaced(w, prog, Ops(e), n, pc) && OperandDiscipline(Ops(e)).Some?
    requires AllComputed(w, prog, Ops(e), n, pc, st)
    ensures Computes(w, prog, e, n, pc, st)
  {
    hide Discipline, Gen, GenChunks, PositionBlind, ByteCode.Unique, At, IsStrict, Ops, TailOf, Eval, EvalAll, Leads,
         LeadsAll, PlanOf, CombineAll, OperandDiscipline, SolidResult, ArgsFit, ChunksWeight;
    StrictCode(e, n);
    DisciplineStrict(e);
    EvalStrict(w, e, st.env, st.h);
    var tail := TailOf(PlanOf(e, 0));
    var ops := GenChunks(Plainly(Ops(e)), n).value.code;
    AtSplit(prog, pc, ops, tail);
    StrictLeads(w, prog, e, Run(pc, st), st.stack, pc + |ops|, EvalAll(w, Ops(e), st.env, st.h), OperandDiscipline(Ops(e)).value);
  }

  // ---------- conditionals ----------

  lemma CondWeighs(e: Expr)
    requires hide *; e.kind.Cond?
    ensures Weight(e) > Weight(e.kind.cond) && Weight(e) > Weight(e.kind.lhs) && Weight(e) > Weight(e.kind.rhs)
  {
  }

  lemma {:induction false} SimulatesCond<H(!new)>(w: World<H>, prog: seq<IR>, e: Expr, n: nat, pc: nat, st: State<H>)
    requires Placed(w, prog, e, n, pc) && e.kind.Cond?
    ensures Computes(w, prog, e, n, pc, st)
    decreases Weight(e), 1, 0
  {
    hide Weight, Placed, Computes, Discipline, Gen, PlanOf, Eval, Reach, CondAt, LeavesOn, IsBool;
    CondWeighs(e);
    var Cond(c, l, r) := e.kind;
    var gc, gl, gr := CondPlaced(w, prog, e, n, pc);
    Simulates(w, prog, c, gl.last, pc, st);
    EvalCond(w, e, st.env, st.h);
    var o := Eval(w, c, st.env, st.h);
    var junk := LeftBy(w, prog, c, gl.last, pc, st);
    if o.Fault? {
      Fails(w, prog, e, n, pc, st, o.h);
    } else {
      var mid := After(w, c, st, junk);
      CondJumps(w, prog, e, n, pc, gc, gl, gr, st, junk);
      if IsBool(o.v.value, true) {
        Simulates(w, prog, l, gr.last, pc + |gc.code| + 1, mid);
        ThenDone(w, prog, e, n, pc, gc, gl, gr, st, junk);
      } else if IsBool(o.v.value, false) {
        Simulates(w, prog, r, n + 2, pc + |gc.code| + |gl.code| + 3, mid);
        ElseDone(w, prog, e, n, pc, gc, gl, gr, st, junk);
      } else {
        Fails(w, prog, e, n, pc, st, o.h);
      }
    }
  }

  /** The value of an expression on top of what was there before and what its code leaves behind. */
  ghost predicate LeavesOn<H(!new)>(w: World<H>, prog: seq<IR>, e: Expr, n: nat, pc: nat, st: State<H>, junk: seq<StackValue>)
  {
    hide At, RunN, Eval, Discipline, GenChunks, PlanOf, Gen, Fits, PositionBlind, Unique;
    var o := Eval(w, e, st.env, st.h);
    && Placed(w, prog, e, n, pc) && o.Done? && o.v.Some? && Fits(o.v, junk, Discipline(e).value)
    && Reach(w, prog, Run(pc, st), Run(pc + |Gen(e, n).value.code|, State(st.stack + junk + [o.v.value], o.env, o.h)))
  }

  /** The pieces of a conditional are placed where the layout says. */
  lemma {:induction false} CondPlaced<H(!new)>(w: World<H>, prog: seq<IR>, e: Expr, n: nat, pc: nat) returns (gc: Code, gl: Code, gr: Code)
    requires hide *; Placed(w, prog, e, n, pc) && e.kind.Cond?
    ensures CondAt(prog, e, n, pc, gc, gl, gr)
    ensures Placed(w, prog, e.kind.cond, gl.last, pc)
    ensures Placed(w, prog, e.kind.lhs, gr.last, pc + |gc.code| + 1)
    ensures Placed(w, prog, e.kind.rhs, n + 2, pc + |gc.code| + |gl.code| + 3)
    ensures Yields(Discipline(e.kind.cond))
  {
    hide Gen, Discipline, PositionBlind, ByteCode.Unique, At, Weight;
    gc, gl, gr := CondLayout(prog, pc, e, n);
    DisciplineCond(e);
  }

  ghost predicate CondAt(prog: seq<IR>, e: Expr, n: nat, pc: nat, gc: Code, gl: Code, gr: Code)
  {
    hide *;
    var p1 := pc + |gc.code|; var p2 := p1 + 1 + |gl.code|; var p3 := p2 + 2 + |gr.code|;
    && e.kind.Cond? && Gen(e.kind.rhs, n + 2) == Ok(gr) && Gen(e.kind.lhs, gr.last) == Ok(gl) && Gen(e.kind.cond, gl.last) == Ok(gc)
    && Gen(e, n).Ok? && pc + |Gen(e, n).value.code| == p3 + 1 && p3 < |prog|
    && prog[p1] == JumpIfFalse(n + 1) && prog[p2] == Jump(n + 2) && prog[p2 + 1] == Label(n + 1) && prog[p3] == Label(n + 2)
  }

  lemma CondJumps<H(!new)>(w: World<H>, prog: seq<IR>, e: Expr, n: nat, pc: nat, gc: Code, gl: Code, gr: Code,
                           st: State<H>, junk: seq<StackValue>)
    requires hide At, Discipline, Eval, Gen, RunN, Weight, Placed, CondAt;
             e.kind.Cond? && CondAt(prog, e, n, pc, gc, gl, gr) && Placed(w, prog, e, n, pc)
    requires Placed(w, prog, e.kind.cond, gl.last, pc) && LeavesOn(w, prog, e.kind.cond, gl.last, pc, st, junk)
    ensures var o := Eval(w, e.kind.cond, st.env, st.h); var mid := State(st.stack + junk, o.env, o.h);
            && Gives(o)
            && (IsBool(o.v.value, true) ==> Reach(w, prog, Run(pc, st), Run(pc + |gc.code| + 1, mid)))
            && (IsBool(o.v.value, false) ==> Reach(w, prog, Run(pc, st), Run(pc + |gc.code| + |gl.code| + 3, mid)))
            && (!IsBool(o.v.value, true) && !IsBool(o.v.value, false) ==> Reach(w, prog, Run(pc, st), Failed(mid.h)))
  {
    hide Gen, Discipline, PositionBlind, ByteCode.Unique, At, Reach, Eval, IsBool, Fits, Weight;
    var o := Eval(w, e.kind.cond, st.env, st.h);
    var v := o.v.value;
    var p1 := pc + |gc.code|;
    var a := Run(p1, State(st.stack + junk + [v], o.env, o.h));
    Branching(w, prog, p1, st.stack + junk, v, o.env, o.h, p1 + 2 + |gl.code|);
    var mid := State(st.stack + junk, o.env, o.h);
    if IsBool(v, true) {
      ReachTrans(w, prog, Run(pc, st), a, Run(p1 + 1, mid));
    } else if !IsBool(v, false) {
      ReachTrans(w, prog, Run(pc, st), a, Failed(o.h));
    }
    if IsBool(v, false) {
      ReachTrans(w, prog, Run(pc, st), a, Run(p1 + |gl.code| + 3, mid));
    }
  }

  /** What the code of a yielding expression leaves below its value. */
  lemma LeftBy<H(!new)>(w: World<H>, prog: seq<IR>, e: Expr, n: nat, pc: nat, st: State<H>) returns (junk: seq<StackValue>)
    requires Placed(w, prog, e, n, pc) && Yields(Discipline(e)) && Computes(w, prog, e, n, pc, st)
    ensures Eval(w, e, st.env, st.h).Done? ==> LeavesOn(w, prog, e, n, pc, st, junk) && Gives(Eval(w, e, st.env, st.h))
    ensures Eval(w, e, st.env, st.h).Fault? ==> Reach(w, prog, Run(pc, st), Failed(Eval(w, e, st.env, st.h).h))
  {
    hide Gen, Discipline, PositionBlind, ByteCode.Unique, At, Reach, Eval, Leads, Fits;
    junk := Left(w, prog, Run(pc, st), st.stack, pc + |Gen(e, n).value.code|, Eval(w, e, st.env, st.h), Discipline(e).value);
  }

  lemma Fails<H(!new)>(w: World<H>, prog: seq<IR>, e: Expr, n: nat, pc: nat, st: State<H>, h: H)
    requires Placed(w, prog, e, n, pc) && Reach(w, prog, Run(pc, st), Failed(h)) && Eval(w, e, st.env, st.h) == Fault(h)
    ensures Computes(w, prog, e, n, pc, st)
  {
    hide Gen, Discipline, PositionBlind, ByteCode.Unique, At, Reach, Eval;
  }

  predicate Widens(sh: Shape, wide: Shape, junk: seq<StackValue>) {
    wide.value == sh.value && (wide.solid ==> sh.solid) && (!wide.junk ==> junk == [] && !sh.junk)
  }

  /** The rest of the work of an expression is done from another configuration, over what is left already. */
  lemma ContinueAs<H(!new)>(w: World<H>, prog: seq<IR>, e: Expr, n: nat, pc: nat, st: State<H>,
                            b: Config<H>, junk: seq<StackValue>, out: Outcome<H>, sh: Shape)
    requires hide At, RunN, Eval, Discipline, GenChunks, PlanOf, Gen, Unique;
             Placed(w, prog, e, n, pc) && Reach(w, prog, Run(pc, st), b) && out == Eval(w, e, st.env, st.h)
    requires Leads(w, prog, b, st.stack + junk, pc + |Gen(e, n).value.code|, out, sh)
    requires NoSinks(junk) && (out.Fault? || Widens(sh, Discipline(e).value, junk))
    ensures Computes(w, prog, e, n, pc, st)
  {
    hide Gen, Discipline, PositionBlind, ByteCode.Unique, At, Reach, Eval, Weight;
    var to := pc + |Gen(e, n).value.code|;
    if out.Fault? {
      ReachTrans(w, prog, Run(pc, st), b, Failed(out.h));
    } else {
      hide Leads;
      LeadsOver(w, prog, b, st.stack, junk, to, out, sh, Discipline(e).value);
      LeadsFrom(w, prog, Run(pc, st), b, st.stack, to, out, Discipline(e).value);
    }
  }

  /** The state after an expression, without its value. */
  function After<H>(w: World<H>, e: Expr, st: State<H>, junk: seq<StackValue>): State<H> {
    hide *;
    var o := Eval(w, e, st.env, st.h);
    State(st.stack + junk, if o.Done? then o.env else st.env, o.h)
  }

  function Meaning<H>(w: World<H>, e: Expr, st: State<H>): Outcome<H> { Eval(w, e, st.env, st.h) }

  lemma ThenDone<H(!new)>(w: World<H>, prog: seq<IR>, e: Expr, n: nat, pc: nat, gc: Code, gl: Code, gr: Code,
                          st: State<H>, junk: seq<StackValue>)
    requires hide *; Placed(w, prog, e, n, pc) && e.kind.Cond? && CondAt(prog, e, n, pc, gc, gl, gr)
    requires Placed(w, prog, e.kind.cond, gl.last, pc) && LeavesOn(w, prog, e.kind.cond, gl.last, pc, st, junk)
    requires Placed(w, prog, e.kind.lhs, gr.last, pc + |gc.code| + 1)
    requires Reach(w, prog, Run(pc, st), Run(pc + |gc.code| + 1, After(w, e.kind.cond, st, junk)))
    requires Computes(w, prog, e.kind.lhs, gr.last, pc + |gc.code| + 1, After(w, e.kind.cond, st, junk))
    requires Eval(w, e, st.env, st.h) == Meaning(w, e.kind.lhs, After(w, e.kind.cond, st, junk))
    ensures Computes(w, prog, e, n, pc, st)
  {
    hide Gen, Discipline, PositionBlind, ByteCode.Unique, At, Reach, Eval, Leads, Weight;
    var mid := After(w, e.kind.cond, st, junk);
    DisciplineCond(e);
    var b := Run(pc + |gc.code| + 1, mid);
    var p2 := pc + |gc.code| + 1 + |gl.code|;
    var sl := Discipline(e.kind.lhs).value;
    var out := Eval(w, e.kind.lhs, mid.env, mid.h);
    AfterJump(w, prog, b, mid.stack, p2, p2 + 2 + |gr.code|, out, sl);
    if IsThrow(e.kind.rhs) {
      ThrowFaults(w, e.kind.rhs, mid.env, mid.h);
    }
    ContinueAs(w, prog, e, n, pc, st, b, junk, out, sl);
  }

  lemma ElseDone<H(!new)>(w: World<H>, prog: seq<IR>, e: Expr, n: nat, pc: nat, gc: Code, gl: Code, gr: Code,
                          st: State<H>, junk: seq<StackValue>)
    requires hide *; Placed(w, prog, e, n, pc) && e.kind.Cond? && CondAt(prog, e, n, pc, gc, gl, gr)
    requires Placed(w, prog, e.kind.cond, gl.last, pc) && LeavesOn(w, prog, e.kind.cond, gl.last, pc, st, junk)
    requires Placed(w, prog, e.kind.rhs, n + 2, pc + |gc.code| + |gl.code| + 3)
    requires Reach(w, prog, Run(pc, st), Run(pc + |gc.code| + |gl.code| + 3, After(w, e.kind.cond, st, junk)))
    requires Computes(w, prog, e.kind.rhs, n + 2, pc + |gc.code| + |gl.code| + 3, After(w, e.kind.cond, st, junk))
    requires Eval(w, e, st.env, st.h) == Meaning(w, e.kind.rhs, After(w, e.kind.cond, st, junk))
    ensures Computes(w, prog, e, n, pc, st)
  {
    hide Gen, Discipline, PositionBlind, ByteCode.Unique, At, Reach, Eval, Leads, Weight;
    var mid := After(w, e.kind.cond, st, junk);
    DisciplineCond(e);
    var b := Run(pc + |gc.code| + |gl.code| + 3, mid);
    var p3 := pc + |gc.code| + |gl.code| + 3 + |gr.code|;
    var sr := Discipline(e.kind.rhs).value;
    var out := Eval(w, e.kind.rhs, mid.env, mid.h);
    AfterLabel(w, prog, b, mid.stack, p3, out, sr);
    if IsThrow(e.kind.rhs) {
      ThrowFaults(w, e.kind.rhs, mid.env, mid.h);
    }
    ContinueAs(w, prog, e, n, pc, st, b, junk, out, sr);
  }

  // ---------- operands ----------

  lemma {:induction false} LeftAll<H(!new)>(w: World<H>, prog: seq<IR>, a: Config<H>, base: seq<StackValue>, to: nat, out: Outcomes<H>, junky: bool)
      returns (junk: seq<StackValue>)
    requires hide *; LeadsAll(w, prog, a, base, to, out, junky)
    ensures out.AllDone? ==> NoSinks(junk) && (!junky ==> junk == []) && (forall v :: v in out.vs ==> Plainish(v))
    ensures out.AllDone? ==> Reach(w, prog, a, Run(to, State(base + junk + out.vs, out.env, out.h)))
    ensures !out.AllDone? ==> Reach(w, prog, a, Failed(out.h))
  {
    hide Reach;
    if out.AllDone? {
      junk :| NoSinks(junk) && (!junky ==> junk == []) && Reach(w, prog, a, Run(to, State(base + junk + out.vs, out.env, out.h)));
    } else {
      junk := [];
    }
  }

  function Another<H>(vs: seq<StackValue>, out: Outcome<H>): Outcomes<H> {
    match out
    case Done(Some(v), env, h) => AllDone(vs + [v], env, h)
    case Done(None, _, h) => AllFault(h)
    case Fault(h) => AllFault(h)
  }

  /** One operand more: either it is the first or it leaves nothing below its value. */
  lemma OneMore<H(!new)>(w: World<H>, prog: seq<IR>, a: Config<H>, base: seq<StackValue>, junk: seq<StackValue>,
                         vs: seq<StackValue>, b: Config<H>, to: nat, out: Outcome<H>, sh: Shape, junky: bool)
    requires Reach(w, prog, a, b) && Leads(w, prog, b, base + junk + vs, to, out, sh) && sh.value
    requires NoSinks(junk) && (forall v :: v in vs ==> Plainish(v)) && (vs == [] || !sh.junk)
    requires !junky ==> junk == [] && !sh.junk
    ensures LeadsAll(w, prog, a, base, to, Another(vs, out), junky)
  {
    hide Reach, Step;
    var more := Left(w, prog, b, base + junk + vs, to, out, sh);
    if out.Done? {
      var end := Run(to, State(base + junk + vs + more + [out.v.value], out.env, out.h));
      ReachTrans(w, prog, a, b, end);
      assert (base + junk + vs) + more + [out.v.value] == base + (junk + more) + (vs + [out.v.value]);
      assert NoSinks(junk + more);
    } else {
      ReachTrans(w, prog, a, b, Failed(out.h));
    }
  }

  lemma {:induction false} EvalLastOperand<H>(w: World<H>, front: seq<Expr>, last: Expr, env: Env, h: H)
    ensures EvalAll(w, front + [last], env, h)
            == match EvalAll(w, front, env, h)
               case AllFault(h1) => AllFault(h1)
               case AllDone(vs, env1, h1) => Another(vs, Eval(w, last, env1, h1))
  {
    hide Eval, Weight, WeightAll;
    assert (front + [last])[..|front|] == front;
  }

  lemma {:induction false} DisciplineLastOperand(front: seq<Expr>, last: Expr)
    requires hide Discipline, OperandDiscipline; OperandDiscipline(front + [last]).Some?
    ensures OperandDiscipline(front).Some? && Yields(Discipline(last))
    ensures var j := OperandDiscipline(front + [last]).value;
            if front == [] then !OperandDiscipline(front).value && j == Discipline(last).value.junk
            else !Discipline(last).value.junk && j == OperandDiscipline(front).value
  {
    hide Discipline, Weight, WeightAll;
    assert (front + [last])[..|front|] == front;
  }

  lemma {:induction false} OperandPlaced<H(!new)>(w: World<H>, prog: seq<IR>, front: seq<Expr>, last: Expr, n: nat, pc: nat) returns (f: Code, g: Code)
    requires hide At, Discipline, PlanOf, ChunksWeight, Gen, GenChunks, Plainly, PositionBlind, Unique;
             AllPlaced(w, prog, front + [last], n, pc) && Discipline(last).Some?
    ensures Gen(last, n) == Ok(g) && GenChunks(Plainly(front), g.last) == Ok(f)
    ensures |GenChunks(Plainly(front + [last]), n).value.code| == |f.code| + |g.code|
    ensures AllPlaced(w, prog, front, g.last, pc) && Placed(w, prog, last, n, pc + |f.code|)
  {
    hide Gen, GenChunks, Discipline, PositionBlind, ByteCode.Unique, At;
    ByteCode.LastChunk(front, last, n);
    g := Gen(last, n).value;
    f := GenChunks(Plainly(front), g.last).value;
    AtSplit(prog, pc, f.code, g.code);
  }

  lemma {:induction false} SimulatesAll<H(!new)>(w: World<H>, prog: seq<IR>, es: seq<Expr>, n: nat, pc: nat, st: State<H>)
    requires AllPlaced(w, prog, es, n, pc) && OperandDiscipline(es).Some?
    ensures AllComputed(w, prog, es, n, pc, st)
    decreases WeightAll(es), 3, |es|
  {
    hide Weight, WeightAll, AllPlaced, AllComputed, OperandDiscipline, Placed, Computes, Discipline, Gen, GenChunks,
         EvalAll, Eval, Reach;
    if es == [] {
      NoOperands(w, prog, n, pc, st);
    } else {
      WeightLast(es);
      var front, last := es[..|es| - 1], es[|es| - 1];
      assert es == front + [last];
      DisciplineLastOperand(front, last);
      var f, g := OperandPlaced(w, prog, front, last, n, pc);
      SimulatesAll(w, prog, front, g.last, pc, st);
      LastOperand(w, prog, front, last, n, pc, st, f, g);
      // the last operand is only run when the others have succeeded
      var o := EvalAll(w, front, st.env, st.h);
      if o.AllDone? {
        var junk := FrontLeft(w, prog, front, g.last, pc, st);
        var mid := State(st.stack + junk + o.vs, o.env, o.h);
        Simulates(w, prog, last, n, pc + |f.code|, mid);
        MoreOperands(w, prog, front, last, n, pc, st, f, g, junk);
      }
    }
  }

  lemma NoOperands<H(!new)>(w: World<H>, prog: seq<IR>, n: nat, pc: nat, st: State<H>)
    requires AllPlaced(w, prog, [], n, pc) && OperandDiscipline([]).Some?
    ensures AllComputed(w, prog, [], n, pc, st)
  {
    hide PositionBlind, ByteCode.Unique, At, Reach, Weight, Gen, GenChunks, Discipline, AllPlaced, Eval;
    ByteCode.EmptyChunks(n);
    ReachRefl(w, prog, Run(pc, st));
    assert st.stack + [] + [] == st.stack;
  }

  lemma FrontLeft<H(!new)>(w: World<H>, prog: seq<IR>, es: seq<Expr>, n: nat, pc: nat, st: State<H>) returns (junk: seq<StackValue>)
    requires hide At, RunN, EvalAll, OperandDiscipline, Gen, ChunksWeight, AllComputed, GenChunks, Unique;
             AllPlaced(w, prog, es, n, pc) && OperandDiscipline(es).Some? && AllComputed(w, prog, es, n, pc, st)
    requires EvalAll(w, es, st.env, st.h).AllDone?
    ensures var o := EvalAll(w, es, st.env, st.h);
            && NoSinks(junk) && (!OperandDiscipline(es).value ==> junk == []) && (forall v :: v in o.vs ==> Plainish(v))
            && Reach(w, prog, Run(pc, st), Run(pc + |GenChunks(Plainly(es), n).value.code|, State(st.stack + junk + o.vs, o.env, o.h)))
  {
    hide PositionBlind, ByteCode.Unique, At, GenChunks, OperandDiscipline, EvalAll, Reach, LeadsAll;
    junk := LeftAll(w, prog, Run(pc, st), st.stack, pc + |GenChunks(Plainly(es), n).value.code|, EvalAll(w, es, st.env, st.h),
                    OperandDiscipline(es).value);
  }

  /** An error of an earlier operand is the error of all. */
  lemma LastOperand<H(!new)>(w: World<H>, prog: seq<IR>, front: seq<Expr>, last: Expr, n: nat, pc: nat, st: State<H>, f: Code, g: Code)
    requires AllPlaced(w, prog, front + [last], n, pc) && OperandDiscipline(front + [last]).Some?
    requires AllPlaced(w, prog, front, g.last, pc) && OperandDiscipline(front).Some? && AllComputed(w, prog, front, g.last, pc, st)
    ensures EvalAll(w, front, st.env, st.h).AllFault? ==> AllComputed(w, prog, front + [last], n, pc, st)
  {
    hide PositionBlind, ByteCode.Unique, At, GenChunks, OperandDiscipline, EvalAll, Reach, Eval;
    EvalLastOperand(w, front, last, st.env, st.h);
  }

  lemma MoreOperands<H(!new)>(w: World<H>, prog: seq<IR>, front: seq<Expr>, last: Expr, n: nat, pc: nat, st: State<H>, f: Code, g: Code,
                              junk: seq<StackValue>)
    requires hide At, ChunksWeight, Discipline, Eval, EvalAll, OperandDiscipline, PlanOf, RunN, Weight, WeightAll,
                  Computes, Unique;
             AllPlaced(w, prog, front + [last], n, pc) && OperandDiscipline(front + [last]).Some?
    requires Placed(w, prog, last, n, pc + |f.code|) && Gen(last, n) == Ok(g) && OperandDiscipline(front).Some?
    requires |GenChunks(Plainly(front + [last]), n).value.code| == |f.code| + |g.code|
    requires EvalAll(w, front, st.env, st.h).AllDone?
    requires var o := EvalAll(w, front, st.env, st.h);
             var mid := State(st.stack + junk + o.vs, o.env, o.h);
             && NoSinks(junk) && (!OperandDiscipline(front).value ==> junk == []) && (forall v :: v in o.vs ==> Plainish(v))
             && Reach(w, prog, Run(pc, st), Run(pc + |f.code|, mid))
             && Computes(w, prog, last, n, pc + |f.code|, mid)
    ensures AllComputed(w, prog, front + [last], n, pc, st)
  {
    hide PositionBlind, ByteCode.Unique, At, GenChunks, OperandDiscipline, EvalAll, Reach, Eval, Leads, LeadsAll,
         Discipline, Gen;
    var o := EvalAll(w, front, st.env, st.h);
    var mid := State(st.stack + junk + o.vs, o.env, o.h);
    EvalLastOperand(w, front, last, st.env, st.h);
    DisciplineLastOperand(front, last);
    OneMore(w, prog, Run(pc, st), st.stack, junk, o.vs, Run(pc + |f.code|, mid), pc + |f.code| + |g.code|,
            Eval(w, last, o.env, o.h), Discipline(last).value, OperandDiscipline(front + [last]).value);
  }

  // ---------- expressions that are replaced by others ----------

  /** Code, discipline and meaning of the two expressions are the same. */
  ghost predicate SameAs<H(!new)>(w: World<H>, e: Expr, to: Expr, n: nat, env: Env, h: H) {
    && Gen(e, n) == Gen(to, n) && Discipline(e) == Discipline(to) && Eval(w, e, env, h) == Eval(w, to, env, h)
    && Weight(to) < Weight(e)
  }

  lemma SameComputes<H(!new)>(w: World<H>, prog: seq<IR>, e: Expr, to: Expr, n: nat, pc: nat, st: State<H>)
    requires Placed(w, prog, e, n, pc) && SameAs(w, e, to, n, st.env, st.h)
    ensures Placed(w, prog, to, n, pc)
    ensures Computes(w, prog, to, n, pc, st) ==> Computes(w, prog, e, n, pc, st)
  {
    hide Gen, Discipline, PositionBlind, ByteCode.Unique, At, Leads, Eval, Weight;
  }

  lemma RewritePlan(e: Expr, n: nat)
    requires hide *; e.kind.PatternMatch? || (e.kind.SelectIndex? && !IsStrict(e))
    ensures PlanOf(e, n) == PlanOf(e, 0) && !PlanOf(e, n).Parts?
  {
    hide Weight, Desugar.Match, Desugar.RangeSelection, LeafPlan, CallPlan, WitOf;
  }

  lemma DisciplineRewritten(e: Expr)
    requires hide *; e.kind.PatternMatch? || (e.kind.SelectIndex? && !IsStrict(e))
    requires Discipline(e).Some?
    ensures PlanOf(e, 0).Rewrite? && Discipline(e) == Discipline(PlanOf(e, 0).to)
  {
    hide Weight, PlanOf, OperandDiscipline, BlockDiscipline, Ops, ArgsFit, ChunksWeight;
  }

  lemma {:induction false} EvalRewritten<H>(w: World<H>, e: Expr, env: Env, h: H)
    requires hide *; e.kind.PatternMatch? || (e.kind.SelectIndex? && !IsStrict(e))
    requires PlanOf(e, 0).Rewrite?
    ensures Eval(w, e, env, h) == Eval(w, PlanOf(e, 0).to, env, h)
  {
    hide Weight, PlanOf, Combine, EvalAll, EvalBlock, Collect, Fold, Truth, Ops, ChunksWeight, WitOf, Iterated;
  }

  lemma RewrittenSame<H(!new)>(w: World<H>, e: Expr, n: nat, env: Env, h: H)
    requires hide *; e.kind.PatternMatch? || (e.kind.SelectIndex? && !IsStrict(e))
    requires Discipline(e).Some?
    ensures PlanOf(e, 0).Rewrite? && SameAs(w, e, PlanOf(e, 0).to, n, env, h)
  {
    hide Weight, PlanOf, Gen, Discipline, Eval, GenChunks;
    RewritePlan(e, n);
    DisciplineRewritten(e);
    EvalRewritten(w, e, env, h);
    GenUnfold(e, n);
    PlanShrinks(e, n);
  }

  lemma {:induction false} SimulatesRewritten<H(!new)>(w: World<H>, prog: seq<IR>, e: Expr, n: nat, pc: nat, st: State<H>)
    requires Placed(w, prog, e, n, pc) && (e.kind.PatternMatch? || (e.kind.SelectIndex? && !IsStrict(e)))
    ensures Computes(w, prog, e, n, pc, st)
    decreases Weight(e), 1, 0
  {
    hide PlanOf, Gen, Discipline, Eval, PositionBlind, ByteCode.Unique, At, Computes, Weight;
    RewrittenSame(w, e, n, st.env, st.h);
    var to := PlanOf(e, 0).to;
    SameComputes(w, prog, e, to, n, pc, st);
    Simulates(w, prog, to, n, pc, st);
  }

  // ---------- logical operators ----------

  function AsCond(e: Expr): Expr
    requires hide *; e.kind.Binary?
  {
    if e.kind.binary.And? then AndAsCond(e.kind.lhs, e.kind.rhs) else OrAsCond(e.kind.lhs, e.kind.rhs)
  }

  lemma LogicalCode(e: Expr, n: nat)
    requires hide *; e.kind.Binary? && !IsStrict(e)
    ensures Gen(e, n) == Gen(AsCond(e), n) && Weight(AsCond(e)) < Weight(e)
  {
    hide Gen, MatchPlan, LeafPlan, CallPlan, SelectPlan;
    GenUnfold(e, n);
    AsCondWeight(e.kind.lhs, e.kind.rhs);
  }

  /** The comparison with `true` that the operators are made of. */
  lemma {:induction false} EvalEqTrue<H>(w: World<H>, e: Expr, env: Env, h: H)
    ensures hide Eval, CompareValues, MkBool; var o := Eval(w, e, env, h);
            Eval(w, MkEq(e, MkBool(true)), env, h)
            == if Gives(o) && Truth(o.v.value).Some? then Done(Some(MkVal(Truth(o.v.value).value)), o.env, o.h) else Fault(o.h)
  {
    hide Eval, EvalAll, CompareTyped, Weight;
    var eq := MkEq(e, MkBool(true));
    var yes := MkVal(true);
    EvalStrict(w, eq, env, h);
    EvalTrue(w, true, env, h);
    assert [MkBool(true)] + [e] == Ops(eq);
    EvalLastOperand(w, [MkBool(true)], e, env, h);
    EvalLastOperand(w, [], MkBool(true), env, h);
    EvalNone(w, env, h);
    assert [] + [MkBool(true)] == [MkBool(true)] && [] + [yes] == [yes];
    var o := Eval(w, e, env, h);
    if Gives(o) {
      assert Reverse([yes] + [o.v.value]) == [o.v.value, yes];
    }
  }

  lemma EvalNone<H>(w: World<H>, env: Env, h: H)
    ensures EvalAll(w, [], env, h) == AllDone([], env, h)
  {
    hide Eval;
  }

  lemma {:induction false} EvalTrue<H>(w: World<H>, b: bool, env: Env, h: H)
    ensures Eval(w, MkBool(b), env, h) == Done(Some(MkVal(b)), env, h)
  {
    hide Weight, EvalAll, Eval, BinaryValue, UnaryValue, CallValue, ListValue, WitOf;
    EvalStrict(w, MkBool(b), env, h);
    EvalNone(w, env, h);
    assert Ops(MkBool(b)) == [] && Reverse<StackValue>([]) == [];
  }

  lemma {:induction false} EvalLogical<H>(w: World<H>, e: Expr, env: Env, h: H)
    requires hide Eval, CompareValues, IsStrict; e.kind.Binary? && !IsStrict(e)
    ensures var op := e.kind.binary; var o := Eval(w, e.kind.lhs, env, h);
            Eval(w, e, env, h)
            == if !Gives(o) || Truth(o.v.value).None? then Fault(o.h)
               else if Truth(o.v.value).value == op.Or? then Done(Some(MkVal(op.Or?)), o.env, o.h)
               else Logical(Eval(w, e.kind.rhs, o.env, o.h))
  {
    hide Weight, PlanOf, Combine, EvalAll, EvalBlock, Collect, Fold, Truth, Ops, ChunksWeight, WitOf, Iterated;
  }

  function Logical<H>(u: Outcome<H>): Outcome<H> {
    hide CompareValues;
    if Gives(u) && Truth(u.v.value).Some? then Done(Some(MkVal(Truth(u.v.value).value)), u.env, u.h) else Fault(u.h)
  }

  /** The conditional has the meaning of the operator, with the same short cut. */
  lemma {:induction false} EvalAsCond<H>(w: World<H>, e: Expr, env: Env, h: H)
    requires hide *; e.kind.Binary? && !IsStrict(e)
    ensures Eval(w, AsCond(e), env, h) == Eval(w, e, env, h)
  {
    hide Eval, Truth, Weight, MkBool;
    var Binary(op, l, r) := e.kind;
    var o := Eval(w, l, env, h);
    EvalLogical(w, e, env, h);
    EvalCond(w, AsCond(e), env, h);
    EvalEqTrue(w, l, env, h);
    if Gives(o) {
      EvalEqTrue(w, r, o.env, o.h);
      EvalTrue(w, op.Or?, o.env, o.h);
    }
  }

  lemma DisciplineEqTrue(e: Expr)
    requires Neat(Discipline(e))
    ensures Discipline(MkEq(e, MkBool(true))) == Some(Shape(true, false, true))
  {
    hide Discipline, OperandDiscipline;
    var eq := MkEq(e, MkBool(true));
    DisciplineTrue(true);
    OperandsOfTwo(MkBool(true), e);
    hide Discipline, OperandDiscipline, Weight;
    DisciplineOfStrict(eq);
  }

  lemma DisciplineOfStrict(e: Expr)
    requires hide *; IsStrict(e) && !e.kind.Call?
    ensures Discipline(e) == if OperandDiscipline(Ops(e)).None? then None
                             else Some(Shape(true, OperandDiscipline(Ops(e)).value, SolidResult(e)))
  {
    hide OperandDiscipline, Ops, IsStrict, ArgsFit, SolidResult, Weight, BlockDiscipline, PlanOf;
  }

  lemma DisciplineTrue(b: bool)
    ensures Discipline(MkBool(b)) == Some(Shape(true, false, true))
  {
    hide Discipline, Weight;
    DisciplineOfStrict(MkBool(b));
  }

  lemma OperandsOfTwo(a: Expr, b: Expr)
    requires Neat(Discipline(a)) && Neat(Discipline(b))
    ensures OperandDiscipline([a, b]) == Some(false)
  {
    hide Discipline, Weight;
    assert [a, b][..1] == [a] && [a][..0] == [];
    assert OperandDiscipline([a]) == Some(false);
  }

  lemma DisciplineLogical(e: Expr)
    requires hide *; e.kind.Binary? && !IsStrict(e) && Discipline(e).Some?
    ensures Discipline(e) == Some(Shape(true, false, true)) && Neat(Discipline(e.kind.lhs)) && Neat(Discipline(e.kind.rhs))
  {
    hide Weight, PlanOf, OperandDiscipline, BlockDiscipline, Ops, ArgsFit, ChunksWeight;
  }

  lemma {:induction false} DisciplineOfCond(e: Expr)
    requires hide Discipline, Weight; e.kind.Cond?
    requires Yields(Discipline(e.kind.cond)) && Yields(Discipline(e.kind.lhs)) && Yields(Discipline(e.kind.rhs))
    ensures var sc, sl, sr := Discipline(e.kind.cond).value, Discipline(e.kind.lhs).value, Discipline(e.kind.rhs).value;
            Discipline(e) == Some(Shape(true, sc.junk || sl.junk || sr.junk, sl.solid && sr.solid))
  {
    hide Weight, PlanOf, OperandDiscipline, BlockDiscipline, Ops, ArgsFit, ChunksWeight;
  }

  lemma DisciplineAsCond(e: Expr)
    requires hide *; e.kind.Binary? && !IsStrict(e) && Discipline(e).Some?
    ensures Discipline(AsCond(e)) == Discipline(e)
  {
    hide Weight, Discipline;
    DisciplineLogical(e);
    DisciplineEqTrue(e.kind.lhs);
    DisciplineEqTrue(e.kind.rhs);
    DisciplineTrue(e.kind.binary.Or?);
    DisciplineOfCond(AsCond(e));
  }

  lemma {:induction false} SimulatesLogical<H(!new)>(w: World<H>, prog: seq<IR>, e: Expr, n: nat, pc: nat, st: State<H>)
    requires Placed(w, prog, e, n, pc) && e.kind.Binary? && !IsStrict(e)
    ensures Computes(w, prog, e, n, pc, st)
    decreases Weight(e), 1, 0
  {
    hide PlanOf, Gen, Discipline, Eval, PositionBlind, ByteCode.Unique, At, Computes, Weight, AsCond;
    LogicalCode(e, n);
    DisciplineAsCond(e);
    EvalAsCond(w, e, st.env, st.h);
    SameComputes(w, prog, e, AsCond(e), n, pc, st);
    Simulates(w, prog, AsCond(e), n, pc, st);
  }

  // ---------- blocks ----------

  ghost predicate BlockComputed<H(!new)>(w: World<H>, prog: seq<IR>, es: seq<Expr>, n: nat, pc: nat, st: State<H>) {
    hide At, Eval, BlockDiscipline, Gen;
    && AllPlaced(w, prog, es, n, pc) && BlockDiscipline(es).Some?
    && Leads(w, prog, Run(pc, st), st.stack, pc + |GenChunks(Plainly(es), n).value.code|, EvalBlock(w, es, st.env, st.h),
             BlockDiscipline(es).value)
  }

  lemma BlockCode(e: Expr, n: nat)
    requires hide *; e.kind.Block?
    ensures Gen(e, n) == GenChunks(Plainly(e.kind.exprs), n)
  {
    hide Gen, GenChunks, Weight, MatchPlan, LeafPlan, CallPlan, SelectPlan, WitOf;
    GenUnfold(e, n);
    assert PlanOf(e, n) == Operands(e.kind.exprs, []);
    var g := GenChunks(Plainly(e.kind.exprs), n);
    if g.Ok? {
      assert g.value.code + [] == g.value.code;
    }
  }

  lemma {:induction false} BlockMeaning<H>(w: World<H>, e: Expr, env: Env, h: H)
    requires hide *; e.kind.Block?
    ensures Eval(w, e, env, h) == EvalBlock(w, e.kind.exprs, env, h)
    ensures Discipline(e) == BlockDiscipline(e.kind.exprs)
    ensures WeightAll(e.kind.exprs) < Weight(e)
  {
    hide PlanOf, Combine, EvalAll, EvalBlock, Collect, Fold, Truth, Ops, OperandDiscipline, BlockDiscipline,
         WeightAll, ArgsFit, ChunksWeight, WitOf, ArmsCost, Iterated;
  }

  lemma {:induction false} BlockPlaced<H(!new)>(w: World<H>, prog: seq<IR>, e: Expr, n: nat, pc: nat, st: State<H>)
    requires hide *; Placed(w, prog, e, n, pc) && e.kind.Block?
    ensures AllPlaced(w, prog, e.kind.exprs, n, pc) && BlockDiscipline(e.kind.exprs).Some?
    ensures WeightAll(e.kind.exprs) < Weight(e)
    ensures BlockComputed(w, prog, e.kind.exprs, n, pc, st) ==> Computes(w, prog, e, n, pc, st)
  {
    hide Gen, GenChunks, PositionBlind, ByteCode.Unique, At, Leads, Eval, EvalBlock, Discipline, BlockDiscipline,
         Weight, WeightAll;
    BlockCode(e, n);
    BlockMeaning(w, e, st.env, st.h);
  }

  lemma EmptyMeaning<H>(w: World<H>, env: Env, h: H)
    ensures EvalBlock(w, [], env, h) == Done(None, env, h)
  {
    hide Eval;
  }

  lemma {:induction false} EvalLastStatement<H>(w: World<H>, front: seq<Expr>, last: Expr, env: Env, h: H)
    ensures EvalBlock(w, front + [last], env, h)
            == match EvalBlock(w, front, env, h)
               case Fault(h1) => Fault(h1)
               case Done(_, env1, h1) => Eval(w, last, env1, h1)
  {
    hide Eval, Weight, WeightAll;
    assert (front + [last])[..|front|] == front;
  }

  lemma DisciplineLastStatement(front: seq<Expr>, last: Expr)
    requires hide *; BlockDiscipline(front + [last]).Some?
    ensures BlockDiscipline(front).Some? && Discipline(last).Some?
    ensures var f, s := BlockDiscipline(front).value, Discipline(last).value;
            BlockDiscipline(front + [last]).value == Shape(s.value, f.value || f.junk || s.junk, s.solid)
  {
    hide Discipline, Weight, WeightAll;
    assert (front + [last])[..|front|] == front;
  }

  lemma EmptyBlock<H(!new)>(w: World<H>, prog: seq<IR>, n: nat, pc: nat, st: State<H>)
    requires AllPlaced(w, prog, [], n, pc)
    ensures BlockComputed(w, prog, [], n, pc, st)
  {
    hide PositionBlind, ByteCode.Unique, At, Reach, Weight, Gen, GenChunks, Discipline, AllPlaced, Eval;
    ByteCode.EmptyChunks(n);
    ReachRefl(w, prog, Run(pc, st));
    assert st.stack + [] + [] == st.stack;
    assert Fits(None, [], Shape(false, false, false));
  }

  lemma {:induction false} SimulatesBlock<H(!new)>(w: World<H>, prog: seq<IR>, es: seq<Expr>, n: nat, pc: nat, st: State<H>)
    requires AllPlaced(w, prog, es, n, pc) && BlockDiscipline(es).Some?
    ensures BlockComputed(w, prog, es, n, pc, st)
    decreases WeightAll(es), 3, |es|
  {
    hide Weight, WeightAll, AllPlaced, BlockComputed, BlockDiscipline, Placed, Computes, Discipline, Gen, GenChunks,
         EvalBlock, Eval, Reach;
    if es == [] {
      EmptyBlock(w, prog, n, pc, st);
    } else {
      WeightLast(es);
      var front, last := es[..|es| - 1], es[|es| - 1];
      assert es == front + [last];
      DisciplineLastStatement(front, last);
      var f, g := OperandPlaced(w, prog, front, last, n, pc);
      SimulatesBlock(w, prog, front, g.last, pc, st);
      var under := BlockLeft(w, prog, front, last, n, pc, st, f, g);
      var o := EvalBlock(w, front, st.env, st.h);
      if o.Done? {
        var mid := State(st.stack + under, o.env, o.h);
        Simulates(w, prog, last, n, pc + |f.code|, mid);
        MoreStatements(w, prog, front, last, n, pc, st, f, g, under);
      }
    }
  }

  ghost predicate LeftUnder<H(!new)>(w: World<H>, prog: seq<IR>, front: seq<Expr>, pc: nat, to: nat, st: State<H>, under: seq<StackValue>) {
    hide *;
    var o := EvalBlock(w, front, st.env, st.h);
    && o.Done? && BlockDiscipline(front).Some? && NoSinks(under)
    && (!BlockDiscipline(front).value.value && !BlockDiscipline(front).value.junk ==> under == [])
    && Reach(w, prog, Run(pc, st), Run(to, State(st.stack + under, o.env, o.h)))
  }

  /** Earlier statements leave their values on the stack; an error of theirs is the error of the block. */
  lemma BlockLeft<H(!new)>(w: World<H>, prog: seq<IR>, front: seq<Expr>, last: Expr, n: nat, pc: nat, st: State<H>, f: Code, g: Code)
      returns (under: seq<StackValue>)
    requires hide *; AllPlaced(w, prog, front + [last], n, pc) && BlockDiscipline(front + [last]).Some?
    requires BlockComputed(w, prog, front, g.last, pc, st) && GenChunks(Plainly(front), g.last) == Ok(f)
    ensures EvalBlock(w, front, st.env, st.h).Done? ==> LeftUnder(w, prog, front, pc, pc + |f.code|, st, under)
    ensures EvalBlock(w, front, st.env, st.h).Fault? ==> BlockComputed(w, prog, front + [last], n, pc, st)
  {
    hide PositionBlind, ByteCode.Unique, At, GenChunks, BlockDiscipline, EvalBlock, Reach, Eval;
    EvalLastStatement(w, front, last, st.env, st.h);
    var o := EvalBlock(w, front, st.env, st.h);
    under := [];
    if o.Done? {
      var sh := BlockDiscipline(front).value;
      var junk :| Fits(o.v, junk, sh)
        && Reach(w, prog, Run(pc, st), Run(pc + |f.code|, State(st.stack + junk + Opt(o.v), o.env, o.h)));
      under := junk + Opt(o.v);
      assert st.stack + junk + Opt(o.v) == st.stack + under;
    }
  }

  lemma MoreStatements<H(!new)>(w: World<H>, prog: seq<IR>, front: seq<Expr>, last: Expr, n: nat, pc: nat, st: State<H>, f: Code, g: Code,
                                under: seq<StackValue>)
    requires hide At, Reach, Eval, BlockDiscipline, Discipline, PlanOf, EvalBlock, GenChunks;
             AllPlaced(w, prog, front + [last], n, pc) && BlockDiscipline(front + [last]).Some?
    requires Placed(w, prog, last, n, pc + |f.code|) && Gen(last, n) == Ok(g)
    requires |GenChunks(Plainly(front + [last]), n).value.code| == |f.code| + |g.code|
    requires LeftUnder(w, prog, front, pc, pc + |f.code|, st, under)
    requires var o := EvalBlock(w, front, st.env, st.h);
             o.Done? && Computes(w, prog, last, n, pc + |f.code|, State(st.stack + under, o.env, o.h))
    ensures BlockComputed(w, prog, front + [last], n, pc, st)
  {
    hide PositionBlind, ByteCode.Unique, At, GenChunks, BlockDiscipline, EvalBlock, Reach, Eval, Leads, Discipline,
         Gen, ChunksWeight, Weight;
    var o := EvalBlock(w, front, st.env, st.h);
    var mid := State(st.stack + under, o.env, o.h);
    EvalLastStatement(w, front, last, st.env, st.h);
    DisciplineLastStatement(front, last);
    var to := pc + |f.code| + |g.code|;
    var out := Eval(w, last, o.env, o.h);
    var wide := BlockDiscipline(front + [last]).value;
    LeadsOver(w, prog, Run(pc + |f.code|, mid), st.stack, under, to, out, Discipline(last).value, wide);
    LeadsFrom(w, prog, Run(pc, st), Run(pc + |f.code|, mid), st.stack, to, out, wide);
  }

  // ---------- bindings ----------

  lemma LetCode(e: Expr, n: nat)
    requires hide *; e.kind.Let?
    ensures Gen(e, n) == Then(Gen(e.kind.bound, n), [AssignVar(e.kind.variable)])
    ensures Weight(e.kind.bound) < Weight(e)
  {
    hide Gen, GenChunks, MatchPlan, LeafPlan, CallPlan, WitOf;
    GenUnfold(e, n);
    assert Plainly([e.kind.bound]) == [Chunk(e.kind.bound, [])];
    OneChunk(e.kind.bound, n);
  }

  lemma OneChunk(e: Expr, n: nat)
    ensures GenChunks([Chunk(e, [])], n) == Gen(e, n)
  {
    hide Gen, Weight;
    assert [Chunk(e, [])][..0] == [];
    if Gen(e, n).Ok? {
      var g := Gen(e, n).value;
      assert GenChunks([], g.last) == Ok(Code([], g.last));
      assert [] + (g.code + []) == g.code;
    }
  }

  lemma {:induction false} LetMeaning<H>(w: World<H>, e: Expr, env: Env, h: H)
    requires hide Eval, Discipline; e.kind.Let?
    ensures var o := Eval(w, e.kind.bound, env, h);
            Eval(w, e, env, h) == if Gives(o) then Done(None, o.env[e.kind.variable := o.v.value], o.h) else Fault(o.h)
    ensures Discipline(e).Some? ==> Yields(Discipline(e.kind.bound))
                                    && Discipline(e) == Some(Shape(false, Discipline(e.kind.bound).value.junk, false))
  {
    hide Weight, PlanOf, Combine, EvalAll, EvalBlock, Collect, Fold, Truth, Ops, OperandDiscipline, BlockDiscipline,
         ArgsFit, ChunksWeight, Iterated;
  }

  lemma {:induction false} LetPlaced<H(!new)>(w: World<H>, prog: seq<IR>, e: Expr, n: nat, pc: nat)
    requires hide *; Placed(w, prog, e, n, pc) && e.kind.Let?
    ensures Placed(w, prog, e.kind.bound, n, pc) && Yields(Discipline(e.kind.bound)) && Gen(e, n).Ok? && Gen(e.kind.bound, n).Ok?
    ensures |Gen(e, n).value.code| == |Gen(e.kind.bound, n).value.code| + 1
    ensures pc + |Gen(e.kind.bound, n).value.code| < |prog|
    ensures prog[pc + |Gen(e.kind.bound, n).value.code|] == AssignVar(e.kind.variable)
  {
    hide Gen, PositionBlind, ByteCode.Unique, At, Discipline, Weight, Eval;
    LetCode(e, n);
    DisciplineLet(e);
    var b := Gen(e.kind.bound, n).value.code;
    AtSplit(prog, pc, b, [AssignVar(e.kind.variable)]);
    AtOne(prog, pc + |b|, AssignVar(e.kind.variable));
  }

  lemma DisciplineLet(e: Expr)
    requires hide Discipline, Weight; e.kind.Let? && Discipline(e).Some?
    ensures Yields(Discipline(e.kind.bound)) && Discipline(e) == Some(Shape(false, Discipline(e.kind.bound).value.junk, false))
  {
    hide Weight, PlanOf, OperandDiscipline, BlockDiscipline, Ops, ArgsFit, ChunksWeight;
  }

  lemma {:induction false} SimulatesLet<H(!new)>(w: World<H>, prog: seq<IR>, e: Expr, n: nat, pc: nat, st: State<H>)
    requires Placed(w, prog, e, n, pc) && e.kind.Let?
    ensures Computes(w, prog, e, n, pc, st)
    decreases Weight(e), 1, 0
  {
    hide Gen, PositionBlind, ByteCode.Unique, At, Discipline, Weight, Eval, Placed, Computes, LeavesOn, Reach;
    LetCode(e, n);
    LetPlaced(w, prog, e, n, pc);
    Simulates(w, prog, e.kind.bound, n, pc, st);
    var junk := LeftBy(w, prog, e.kind.bound, n, pc, st);
    LetDone(w, prog, e, n, pc, st, junk);
  }

  lemma LetDone<H(!new)>(w: World<H>, prog: seq<IR>, e: Expr, n: nat, pc: nat, st: State<H>, junk: seq<StackValue>)
    requires hide *; Placed(w, prog, e, n, pc) && e.kind.Let?
    requires var o := Eval(w, e.kind.bound, st.env, st.h);
             && (o.Done? ==> Gives(o) && LeavesOn(w, prog, e.kind.bound, n, pc, st, junk))
             && (o.Fault? ==> Reach(w, prog, Run(pc, st), Failed(o.h)))
    ensures Computes(w, prog, e, n, pc, st)
  {
    hide Gen, PositionBlind, ByteCode.Unique, At, Discipline, Weight, Eval, Reach, Placed;
    LetMeaning(w, e, st.env, st.h);
    LetPlaced(w, prog, e, n, pc);
    PlacedDiscipline(w, prog, e, n, pc);
    var o := Eval(w, e.kind.bound, st.env, st.h);
    if o.Done? {
      var p := pc + |Gen(e.kind.bound, n).value.code|;
      var base := st.stack + junk;
      AssignReaches(w, prog, p, base, o.v.value, o.env, o.h);
      var end := Run(p + 1, State(base, o.env[e.kind.variable := o.v.value], o.h));
      ReachTrans(w, prog, Run(pc, st), Run(p, State(base + [o.v.value], o.env, o.h)), end);
      assert st.stack + junk + Opt(None) == base;
      assert Fits(None, junk, Discipline(e).value);
    }
  }

  lemma PlacedDiscipline<H(!new)>(w: World<H>, prog: seq<IR>, e: Expr, n: nat, pc: nat)
    requires Placed(w, prog, e, n, pc)
    ensures Discipline(e).Some? && Gen(e, n).Ok? && ByteCode.Unique(prog) && PositionBlind(w)
  {
    hide Gen, PositionBlind, ByteCode.Unique, At, Discipline, Weight;
  }

  /** A lazily resolved method is nothing by itself. */
  lemma LazyIs<H(!new)>(w: World<H>, prog: seq<IR>, e: Expr, n: nat, pc: nat, st: State<H>)
    requires Placed(w, prog, e, n, pc) && e.kind.InvokeMethodLazy?
    ensures Computes(w, prog, e, n, pc, st)
  {
    hide PositionBlind, ByteCode.Unique, At, Reach, Gen, GenChunks, Weight, ArgsFit, BlockDiscipline, ChunkWeight,
         Collect, Combine, EvalAll, EvalBlock, Exprs, Fold, Iterated, NumberAs, OperandDiscipline, Ops, Truth, Typed,
         WeightAll, WeightFields, WitOf, MatchPlan;
    GenUnfold(e, n);
    ByteCode.EmptyChunks(n);
    assert Plainly([]) == [];
    ReachRefl(w, prog, Run(pc, st));
    assert st.stack + [] + [] == st.stack;
    assert Fits(None, [], Shape(false, false, false));
  }

  // ---------- comprehensions ----------

  lemma LoopWeighs(e: Expr)
    ensures hide *; e.kind.Comprehension? ==> Weight(e) > Weight(e.kind.iterable) && Weight(e) > Weight(e.kind.body)
    ensures e.kind.Reduce? ==> Weight(e) > Weight(e.kind.iterable) && Weight(e) > Weight(e.kind.body) && Weight(e) > Weight(e.kind.init)
  {
  }

  /** The pieces of a comprehension: the iterable, the loop with its head at l, the body, and four instructions from q on. */
  ghost predicate ComprehensionAt(prog: seq<IR>, e: Expr, n: nat, pc: nat, gi: Code, gb: Code) {
    hide *;
    var l := pc + |gi.code| + 2; var q := l + 5 + |gb.code|;
    && e.kind.Comprehension? && WitOf(e.ty).Some? && Gen(e.kind.body, n + 2) == Ok(gb) && Gen(e.kind.iterable, gb.last) == Ok(gi)
    && Gen(e, n).Ok? && pc + |Gen(e, n).value.code| == q + 4 && q + 4 <= |prog|
    && prog[l - 2] == ToIterator && prog[l - 1] == CreateSink(WitOf(e.ty).value)
    && LoopAt(prog, n, e.kind.iterated, l, q + 2)
    && prog[q] == PushToSink && prog[q + 1] == Jump(n + 1) && prog[q + 3] == SinkToList
  }

  lemma {:induction false} ComprehensionCode(e: Expr, n: nat) returns (gi: Code, gb: Code)
    requires hide *; e.kind.Comprehension? && Gen(e, n).Ok?
    ensures WitOf(e.ty).Some? && Gen(e.kind.body, n + 2) == Ok(gb) && Gen(e.kind.iterable, gb.last) == Ok(gi)
    ensures var tail := [PushToSink, Jump(n + 1), Label(n + 2), SinkToList];
            Gen(e, n).value.code == gi.code + ([ToIterator, CreateSink(WitOf(e.ty).value)] + LoopHead(n, e.kind.iterated)) + (gb.code + tail)
  {
    hide Gen, GenChunks, Weight, WitOf, MatchPlan, RecordPlan, LeafPlan, CallPlan, SelectPlan, BinaryPlan, UnaryPlan,
         ListPlan, RangePlan, LoopHead;
    var Comprehension(x, i, b) := e.kind;
    GenUnfold(e, n);
    assert PlanOf(e, n).Parts? ==> WitOf(e.ty).Some? && PlanOf(e, n) == Parts(ComprehensionChunks(x, i, b, WitOf(e.ty).value, n), [], 2);
    var cs := ComprehensionChunks(x, i, b, WitOf(e.ty).value, n);
    assert cs == [cs[0], cs[1]];
    TwoChunks(cs[0], cs[1], n + 2);
    gb := Gen(b, n + 2).value;
    gi := Gen(i, gb.last).value;
    assert GenChunks(cs, n + 2).value.code + [] == GenChunks(cs, n + 2).value.code;
  }

  lemma {:induction false} ComprehensionLaid(prog: seq<IR>, e: Expr, n: nat, pc: nat) returns (gi: Code, gb: Code)
    requires hide *;
             ByteCode.Unique(prog) && e.kind.Comprehension? && Gen(e, n).Ok? && At(prog, pc, Gen(e, n).value.code)
    ensures ComprehensionAt(prog, e, n, pc, gi, gb) && At(prog, pc, gi.code) && At(prog, pc + |gi.code| + 7, gb.code)
  {
    hide Gen, ByteCode.Unique, At, WitOf, LoopAt;
    gi, gb := ComprehensionCode(e, n);
    var head := [ToIterator, CreateSink(WitOf(e.ty).value)];
    var tail := [PushToSink, Jump(n + 1), Label(n + 2), SinkToList];
    var l := pc + |gi.code| + 2;
    var q := l + 5 + |gb.code|;
    Pieces2(prog, pc, gi.code, head + LoopHead(n, e.kind.iterated), gb.code, tail);
    AtSplit(prog, pc + |gi.code|, head, LoopHead(n, e.kind.iterated));
    AtTwo(prog, pc + |gi.code|, ToIterator, CreateSink(WitOf(e.ty).value));
    AtFour(prog, q, PushToSink, Jump(n + 1), Label(n + 2), SinkToList);
    LoopHeadAt(prog, n, e.kind.iterated, l, q + 2);
  }

  lemma {:induction false} ComprehensionPlaced<H(!new)>(w: World<H>, prog: seq<IR>, e: Expr, n: nat, pc: nat) returns (gi: Code, gb: Code)
    requires hide *; Placed(w, prog, e, n, pc) && e.kind.Comprehension?
    ensures ComprehensionAt(prog, e, n, pc, gi, gb)
    ensures Placed(w, prog, e.kind.iterable, gb.last, pc) && Yields(Discipline(e.kind.iterable))
    ensures Placed(w, prog, e.kind.body, n + 2, pc + |gi.code| + 7) && CleanBody(Discipline(e.kind.body))
    ensures Discipline(e) == Some(Shape(true, true, true))
  {
    hide Gen, PositionBlind, ByteCode.Unique, At, Discipline, Weight, WitOf, LoopAt;
    DisciplineComprehension(e);
    gi, gb := ComprehensionLaid(prog, e, n, pc);
  }

  lemma {:induction false} AtFour(prog: seq<IR>, pc: nat, a: IR, b: IR, c: IR, d: IR)
    requires hide *; At(prog, pc, [a, b, c, d])
    ensures pc + 3 < |prog| && prog[pc] == a && prog[pc + 1] == b && prog[pc + 2] == c && prog[pc + 3] == d
  {
    var code := [a, b, c, d];
    assert prog[pc + 0] == code[0] && prog[pc + 1] == code[1] && prog[pc + 2] == code[2] && prog[pc + 3] == code[3];
  }

  /** The body of a comprehension may leave something below its value if the value goes into the sink for certain. */
  predicate CleanBody(s: Option<Shape>) { Yields(s) && (!s.value.junk || s.value.solid) }

  lemma DisciplineComprehension(e: Expr)
    requires hide *; e.kind.Comprehension? && Discipline(e).Some?
    ensures Yields(Discipline(e.kind.iterable)) && CleanBody(Discipline(e.kind.body))
    ensures Discipline(e) == Some(Shape(true, true, true))
  {
    hide Weight, PlanOf, OperandDiscipline, BlockDiscipline, Ops, ArgsFit, ChunksWeight;
  }

  lemma {:induction false} EvalComprehension<H>(w: World<H>, e: Expr, env: Env, h: H)
    requires hide Eval, WitOf; e.kind.Comprehension?
    ensures var o := Eval(w, e.kind.iterable, env, h);
            Eval(w, e, env, h)
            == if !Gives(o) || Iterated(o.v.value).None? || WitOf(e.ty).None? || !WitOf(e.ty).value.WList? then Fault(o.h)
               else Collect(w, e.kind.iterated, e.kind.body, Iterated(o.v.value).value.items, [], WitOf(e.ty).value.elem, o.env, o.h)
  {
    hide Weight, PlanOf, Combine, EvalAll, EvalBlock, Collect, Fold, Truth, Ops, WitOf, Iterated, Reverse;
  }

  lemma {:induction false} CollectUnfold<H>(w: World<H>, x: VariableId, b: Expr, items: seq<ValueAndType>,
                                            acc: seq<ValueAndType>, elem: WitType, env: Env, h: H)
    ensures hide Collect, Eval; Collect(w, x, b, items, acc, elem, env, h)
            == if items == [] then Done(Some(Val(VT(VList(ValuesOf(acc)), WList(elem)))), env, h)
               else
                 var o := Eval(w, b, env[x := Val(items[0])], h);
                 if !Gives(o) then Fault(o.h)
                 else Collect(w, x, b, items[1..], if o.v.value.Val? then acc + [o.v.value.vt] else acc, elem, o.env, o.h)
  {
    hide Eval, Weight;
  }

  ghost predicate Collects<H(!new)>(w: World<H>, prog: seq<IR>, x: VariableId, b: Expr, l: nat, q: nat, under: seq<StackValue>,
                                    items: seq<ValueAndType>, acc: seq<ValueAndType>, elem: WitType, env: Env, h: H) {
    hide *;
    Leads(w, prog, Run(l + 1, State(under + [Iter(items)] + [Sink(acc, elem)], env, h)), under, q + 4,
          Collect(w, x, b, items, acc, elem, env, h), Shape(true, true, true))
  }

  /** The loop of a comprehension, from any state of its iterator and its sink. */
  lemma {:induction false} SimulatesCollect<H(!new)>(w: World<H>, prog: seq<IR>, n: nat, x: VariableId, b: Expr, l: nat, q: nat,
                                                     under: seq<StackValue>, items: seq<ValueAndType>, acc: seq<ValueAndType>,
                                                     elem: WitType, env: Env, h: H)
    requires CollectorAt(w, prog, n, x, b, l, q)
    ensures Collects(w, prog, x, b, l, q, under, items, acc, elem, env, h)
    decreases Weight(b), 3, |items|
  {
    hide Eval, Collect, Placed, Computes, Discipline, Gen, Weight, Collects, LoopAt, Reach, LeavesOn, CollectorAt;
    if items == [] {
      CollectEnds(w, prog, n, x, b, l, q, under, acc, elem, env, h);
    } else {
      CollectorPlaced(w, prog, n, x, b, l, q);
      var inner := under + [Iter(items[1..])];
      var st := State(inner + [Sink(acc, elem)], env[x := Val(items[0])], h);
      var o := Eval(w, b, st.env, h);
      Simulates(w, prog, b, n + 2, l + 5, st);
      var junk := LeftBy(w, prog, b, n + 2, l + 5, st);
      if o.Done? {
        var more := if o.v.value.Val? then acc + [o.v.value.vt] else acc;
        SimulatesCollect(w, prog, n, x, b, l, q, under, items[1..], more, elem, o.env, o.h);
      }
      CollectOne(w, prog, n, x, b, l, q, under, items, acc, elem, env, h, junk);
    }
  }

  ghost predicate CollectorAt<H(!new)>(w: World<H>, prog: seq<IR>, n: nat, x: VariableId, b: Expr, l: nat, q: nat) {
    hide At, Discipline, GenChunks, PlanOf;
    && Placed(w, prog, b, n + 2, l + 5) && CleanBody(Discipline(b)) && q == l + 5 + |Gen(b, n + 2).value.code| && q + 4 <= |prog|
    && LoopAt(prog, n, x, l, q + 2) && prog[q] == PushToSink && prog[q + 1] == Jump(n + 1) && prog[q + 3] == SinkToList
  }

  lemma CollectorPlaced<H(!new)>(w: World<H>, prog: seq<IR>, n: nat, x: VariableId, b: Expr, l: nat, q: nat)
    requires hide *; CollectorAt(w, prog, n, x, b, l, q)
    ensures Placed(w, prog, b, n + 2, l + 5) && Yields(Discipline(b))
  {
    hide Placed, Discipline, Gen, LoopAt;
  }

  lemma CollectEnds<H(!new)>(w: World<H>, prog: seq<IR>, n: nat, x: VariableId, b: Expr, l: nat, q: nat,
                             under: seq<StackValue>, acc: seq<ValueAndType>, elem: WitType, env: Env, h: H)
    requires CollectorAt(w, prog, n, x, b, l, q)
    ensures Collects(w, prog, x, b, l, q, under, [], acc, elem, env, h)
  {
    hide Placed, Discipline, Gen, LoopAt, Reach, Collect, Eval, Weight, UnaryPlan;
    CollectUnfold(w, x, b, [], acc, elem, env, h);
    LoopTest(w, prog, n, x, l, q + 2, under, [], [Sink(acc, elem)], env, h);
    var st := State(under + [Iter([])] + [Sink(acc, elem)], env, h);
    var v := Val(VT(VList(ValuesOf(acc)), WList(elem)));
    SinkToListReaches(w, prog, q + 3, under + [Iter([])], acc, elem, env, h);
    ReachTrans(w, prog, Run(l + 1, st), Run(q + 3, st), Run(q + 4, State(under + [Iter([])] + [v], env, h)));
    assert Fits(Some(v), [Iter([])], Shape(true, true, true));
  }

  lemma CollectOne<H(!new)>(w: World<H>, prog: seq<IR>, n: nat, x: VariableId, b: Expr, l: nat, q: nat,
                            under: seq<StackValue>, items: seq<ValueAndType>, acc: seq<ValueAndType>, elem: WitType, env: Env, h: H,
                            junk: seq<StackValue>)
    requires hide Discipline, Eval, Gen, Placed, RunN, Weight, CollectorAt;
             CollectorAt(w, prog, n, x, b, l, q) && items != []
    requires var st := State(under + [Iter(items[1..])] + [Sink(acc, elem)], env[x := Val(items[0])], h);
             var o := Eval(w, b, st.env, h);
             if o.Fault? then Reach(w, prog, Run(l + 5, st), Failed(o.h))
             else Gives(o) && LeavesOn(w, prog, b, n + 2, l + 5, st, junk)
                  && Collects(w, prog, x, b, l, q, under, items[1..], if o.v.value.Val? then acc + [o.v.value.vt] else acc, elem, o.env, o.h)
    ensures Collects(w, prog, x, b, l, q, under, items, acc, elem, env, h)
  {
    hide Placed, Discipline, Gen, LoopAt, Reach, Collect, Eval, Leads, At;
    CollectUnfold(w, x, b, items, acc, elem, env, h);
    var inner := under + [Iter(items[1..])];
    var st := State(inner + [Sink(acc, elem)], env[x := Val(items[0])], h);
    var o := Eval(w, b, st.env, h);
    var start := Run(l + 1, State(under + [Iter(items)] + [Sink(acc, elem)], env, h));
    LoopTest(w, prog, n, x, l, q + 2, under, items, [Sink(acc, elem)], env, h);
    if o.Fault? {
      ReachTrans(w, prog, start, Run(l + 5, st), Failed(o.h));
      FailsAs(w, prog, start, o.h, under, q + 4, Shape(true, true, true));
    } else {
      var more := if o.v.value.Val? then acc + [o.v.value.vt] else acc;
      var out := Collect(w, x, b, items[1..], more, elem, o.env, o.h);
      var again := Run(l + 1, State(inner + [Sink(more, elem)], o.env, o.h));
      var done := Run(q, State(inner + [Sink(acc, elem)] + junk + [o.v.value], o.env, o.h));
      ReachTrans(w, prog, start, Run(l + 5, st), done);
      CollectItem(w, prog, n, x, l, q, inner, acc, elem, junk, o.v.value, o.env, o.h);
      ReachTrans(w, prog, start, done, again);
      LeadsFrom(w, prog, start, again, under, q + 4, out, Shape(true, true, true));
    }
  }

  lemma FailsAs<H(!new)>(w: World<H>, prog: seq<IR>, a: Config<H>, h: H, base: seq<StackValue>, to: nat, sh: Shape)
    requires Reach(w, prog, a, Failed(h))
    ensures Leads(w, prog, a, base, to, Fault(h), sh)
  {
    hide Reach;
  }

  lemma {:induction false} SimulatesComprehension<H(!new)>(w: World<H>, prog: seq<IR>, e: Expr, n: nat, pc: nat, st: State<H>)
    requires Placed(w, prog, e, n, pc) && e.kind.Comprehension?
    ensures Computes(w, prog, e, n, pc, st)
    decreases Weight(e), 1, 0
  {
    hide Eval, Collect, Placed, Computes, Discipline, Gen, Weight, Collects, LoopAt, Reach, LeavesOn, CollectorAt,
         ComprehensionAt, WitOf, Iterated;
    LoopWeighs(e);
    var Comprehension(x, i, b) := e.kind;
    var gi, gb := ComprehensionPlaced(w, prog, e, n, pc);
    Simulates(w, prog, i, gb.last, pc, st);
    var junk := LeftBy(w, prog, i, gb.last, pc, st);
    ComprehensionCollects(w, prog, e, n, pc, gi, gb);
    var o := Eval(w, i, st.env, st.h);
    if Gives(o) && Iterated(o.v.value).Some? && WitOf(e.ty).Some? && WitOf(e.ty).value.WList? {
      var l := pc + |gi.code| + 2;
      SimulatesCollect(w, prog, n, x, b, l, l + 5 + |gb.code|, st.stack + junk, IteratedItems(o.v.value), [],
                       WitOf(e.ty).value.elem, o.env, o.h);
    }
    ComprehensionDone(w, prog, e, n, pc, gi, gb, st, junk);
  }

  lemma ComprehensionCollects<H(!new)>(w: World<H>, prog: seq<IR>, e: Expr, n: nat, pc: nat, gi: Code, gb: Code)
    requires hide Discipline, Gen; ComprehensionAt(prog, e, n, pc, gi, gb)
    requires Placed(w, prog, e.kind.body, n + 2, pc + |gi.code| + 7) && CleanBody(Discipline(e.kind.body))
    ensures var l := pc + |gi.code| + 2; CollectorAt(w, prog, n, e.kind.iterated, e.kind.body, l, l + 5 + |gb.code|)
  {
    hide Placed, Discipline, Gen, LoopAt, WitOf, Weight;
  }

  lemma ComprehensionDone<H(!new)>(w: World<H>, prog: seq<IR>, e: Expr, n: nat, pc: nat, gi: Code, gb: Code, st: State<H>,
                                   junk: seq<StackValue>)
    requires hide Reach, Eval, Discipline, Gen;
             Placed(w, prog, e, n, pc) && ComprehensionAt(prog, e, n, pc, gi, gb) && Discipline(e) == Some(Shape(true, true, true))
    requires var o := Eval(w, e.kind.iterable, st.env, st.h);
             var l := pc + |gi.code| + 2;
             if o.Fault? then Reach(w, prog, Run(pc, st), Failed(o.h))
             else Gives(o) && LeavesOn(w, prog, e.kind.iterable, gb.last, pc, st, junk)
                  && (Iterated(o.v.value).Some? && WitOf(e.ty).Some? && WitOf(e.ty).value.WList? ==>
                        Collects(w, prog, e.kind.iterated, e.kind.body, l, l + 5 + |gb.code|, st.stack + junk,
                                 IteratedItems(o.v.value), [], WitOf(e.ty).value.elem, o.env, o.h))
    ensures Computes(w, prog, e, n, pc, st)
  {
    hide Placed, Discipline, Gen, LoopAt, Reach, Collect, Eval, Leads, WitOf, Iterated, Computes;
    EvalComprehension(w, e, st.env, st.h);
    var o := Eval(w, e.kind.iterable, st.env, st.h);
    if o.Fault? {
      Fails(w, prog, e, n, pc, st, o.h);
    } else {
      var base := st.stack + junk;
      var p := pc + |gi.code|;
      var got := Run(p, State(base + [o.v.value], o.env, o.h));
      var t := WitOf(e.ty).value;
      EntersCollect(w, prog, n, e.kind.iterated, p, p + 9 + |gb.code|, t, base, o.v.value, o.env, o.h);
      if Iterated(o.v.value).Some? && t.WList? {
        var full := Run(p + 3, State(base + [Iter(IteratedItems(o.v.value))] + [Sink([], t.elem)], o.env, o.h));
        ReachTrans(w, prog, Run(pc, st), got, full);
        LeftSinkless(w, prog, e.kind.iterable, gb.last, pc, st, junk);
        ContinueAs(w, prog, e, n, pc, st, full, junk, Eval(w, e, st.env, st.h), Shape(true, true, true));
      } else {
        ReachTrans(w, prog, Run(pc, st), got, Failed(o.h));
        Fails(w, prog, e, n, pc, st, o.h);
      }
    }
  }

  // ---------- reductions ----------

  ghost predicate ReductionAt(prog: seq<IR>, e: Expr, n: nat, pc: nat, gi: Code, gs: Code, gb: Code) {
    hide *;
    var p := pc + |gi.code| + |gs.code|; var l := p + 2; var q := l + 5 + |gb.code|;
    && e.kind.Reduce? && Gen(e.kind.body, n + 2) == Ok(gb) && Gen(e.kind.init, gb.last) == Ok(gs) && Gen(e.kind.iterable, gs.last) == Ok(gi)
    && Gen(e, n).Ok? && pc + |Gen(e, n).value.code| == q + 4 && q + 4 <= |prog|
    && prog[p] == AssignVar(e.kind.reduced) && prog[p + 1] == ToIterator
    && LoopAt(prog, n, e.kind.iterated, l, q + 2)
    && prog[q] == AssignVar(e.kind.reduced) && prog[q + 1] == Jump(n + 1) && prog[q + 3] == LoadVar(e.kind.reduced)
  }

  lemma {:induction false} ReductionCode(e: Expr, n: nat) returns (gi: Code, gs: Code, gb: Code)
    requires hide *; e.kind.Reduce? && Gen(e, n).Ok?
    ensures Gen(e.kind.body, n + 2) == Ok(gb) && Gen(e.kind.init, gb.last) == Ok(gs) && Gen(e.kind.iterable, gs.last) == Ok(gi)
    ensures var rx := e.kind.reduced; var tail := [AssignVar(rx), Jump(n + 1), Label(n + 2), LoadVar(rx)];
            Gen(e, n).value.code
            == gi.code + [] + (gs.code + ([AssignVar(rx), ToIterator] + LoopHead(n, e.kind.iterated))) + (gb.code + tail)
  {
    hide Gen, GenChunks, Weight, MatchPlan, RecordPlan, LeafPlan, CallPlan, WitOf, AndAsCond;
    var Reduce(rx, x, i, s, b) := e.kind;
    GenUnfold(e, n);
    assert PlanOf(e, n) == Parts(ReduceChunks(rx, x, i, s, b, n), [], 2);
    var cs := ReduceChunks(rx, x, i, s, b, n);
    assert cs == [cs[0], cs[1], cs[2]];
    ThreeChunks(cs[0], cs[1], cs[2], n + 2);
    gb := Gen(b, n + 2).value;
    gs := Gen(s, gb.last).value;
    gi := Gen(i, gs.last).value;
    assert GenChunks(cs, n + 2).value.code + [] == GenChunks(cs, n + 2).value.code;
  }

  lemma {:induction false} ReductionLaid(prog: seq<IR>, e: Expr, n: nat, pc: nat) returns (gi: Code, gs: Code, gb: Code)
    requires hide *; ByteCode.Unique(prog) && e.kind.Reduce? && Gen(e, n).Ok? && At(prog, pc, Gen(e, n).value.code)
    ensures ReductionAt(prog, e, n, pc, gi, gs, gb)
    ensures At(prog, pc, gi.code) && At(prog, pc + |gi.code|, gs.code) && At(prog, pc + |gi.code| + |gs.code| + 7, gb.code)
  {
    hide Gen, ByteCode.Unique, At, LoopAt;
    gi, gs, gb := ReductionCode(e, n);
    var rx := e.kind.reduced;
    var head := [AssignVar(rx), ToIterator];
    var tail := [AssignVar(rx), Jump(n + 1), Label(n + 2), LoadVar(rx)];
    var p := pc + |gi.code| + |gs.code|;
    var q := p + 7 + |gb.code|;
    Pieces3(prog, pc, gi.code, [], gs.code, head + LoopHead(n, e.kind.iterated), gb.code, tail);
    AtSplit(prog, p, head, LoopHead(n, e.kind.iterated));
    AtTwo(prog, p, AssignVar(rx), ToIterator);
    AtFour(prog, q, AssignVar(rx), Jump(n + 1), Label(n + 2), LoadVar(rx));
    LoopHeadAt(prog, n, e.kind.iterated, p + 2, q + 2);
  }

  lemma {:induction false} ReductionPlaced<H(!new)>(w: World<H>, prog: seq<IR>, e: Expr, n: nat, pc: nat) returns (gi: Code, gs: Code, gb: Code)
    requires hide *; Placed(w, prog, e, n, pc) && e.kind.Reduce?
    ensures ReductionAt(prog, e, n, pc, gi, gs, gb)
    ensures Placed(w, prog, e.kind.iterable, gs.last, pc) && Yields(Discipline(e.kind.iterable))
    ensures Placed(w, prog, e.kind.init, gb.last, pc + |gi.code|) && Neat(Discipline(e.kind.init))
    ensures Placed(w, prog, e.kind.body, n + 2, pc + |gi.code| + |gs.code| + 7) && Neat(Discipline(e.kind.body))
    ensures Discipline(e) == Some(Shape(true, true, false))
  {
    hide Gen, PositionBlind, ByteCode.Unique, At, Discipline, Weight, LoopAt;
    DisciplineReduction(e);
    gi, gs, gb := ReductionLaid(prog, e, n, pc);
  }

  lemma DisciplineReduction(e: Expr)
    requires hide *; e.kind.Reduce? && Discipline(e).Some?
    ensures Yields(Discipline(e.kind.iterable)) && Neat(Discipline(e.kind.init)) && Neat(Discipline(e.kind.body))
    ensures Discipline(e) == Some(Shape(true, true, false))
  {
    hide Weight, PlanOf, OperandDiscipline, BlockDiscipline, Ops, ArgsFit, ChunksWeight, WeightAll, Neat;
  }

  lemma {:induction false} EvalReduction<H>(w: World<H>, e: Expr, env: Env, h: H)
    requires hide Eval; e.kind.Reduce?
    ensures var o := Eval(w, e.kind.iterable, env, h);
            Eval(w, e, env, h)
            == if !Gives(o) then Fault(o.h) else
               var u := Eval(w, e.kind.init, o.env, o.h);
               if !Gives(u) || Iterated(o.v.value).None? then Fault(u.h)
               else Fold(w, e.kind.reduced, e.kind.iterated, e.kind.body, Iterated(o.v.value).value.items,
                         u.env[e.kind.reduced := u.v.value], u.h)
  {
    hide Weight, PlanOf, Combine, EvalAll, EvalBlock, Collect, Fold, Truth, Ops, WitOf, Iterated, Reverse;
  }

  lemma {:induction false} FoldUnfold<H>(w: World<H>, rx: VariableId, x: VariableId, b: Expr, items: seq<ValueAndType>,
                                         env: Env, h: H)
    ensures hide Eval, Fold; Fold(w, rx, x, b, items, env, h)
            == if items == [] then
                 if rx in env && Plainish(env[rx]) then Done(Some(env[rx]), env, h) else Fault(h)
               else
                 var o := Eval(w, b, env[x := Val(items[0])], h);
                 if !Gives(o) then Fault(o.h) else Fold(w, rx, x, b, items[1..], o.env[rx := o.v.value], o.h)
  {
    hide Eval, Weight;
  }

  ghost predicate Folds<H(!new)>(w: World<H>, prog: seq<IR>, rx: VariableId, x: VariableId, b: Expr, l: nat, q: nat,
                                 under: seq<StackValue>, items: seq<ValueAndType>, env: Env, h: H) {
    hide *;
    Leads(w, prog, Run(l + 1, State(under + [Iter(items)] + [], env, h)), under, q + 4,
          Fold(w, rx, x, b, items, env, h), Shape(true, true, false))
  }

  ghost predicate FolderAt<H(!new)>(w: World<H>, prog: seq<IR>, n: nat, rx: VariableId, x: VariableId, b: Expr, l: nat, q: nat) {
    hide At, Discipline, GenChunks, PlanOf;
    && Placed(w, prog, b, n + 2, l + 5) && Neat(Discipline(b)) && q == l + 5 + |Gen(b, n + 2).value.code| && q + 4 <= |prog|
    && LoopAt(prog, n, x, l, q + 2) && prog[q] == AssignVar(rx) && prog[q + 1] == Jump(n + 1) && prog[q + 3] == LoadVar(rx)
  }

  /** The loop of a reduction, from any state of its iterator and its accumulator. */
  lemma {:induction false} SimulatesFold<H(!new)>(w: World<H>, prog: seq<IR>, n: nat, rx: VariableId, x: VariableId, b: Expr,
                                                  l: nat, q: nat, under: seq<StackValue>, items: seq<ValueAndType>, env: Env, h: H)
    requires FolderAt(w, prog, n, rx, x, b, l, q)
    ensures Folds(w, prog, rx, x, b, l, q, under, items, env, h)
    decreases Weight(b), 3, |items|
  {
    hide Eval, Fold, Placed, Computes, Discipline, Gen, Weight, Folds, LoopAt, Reach, LeavesOn, FolderAt;
    if items == [] {
      FoldEnds(w, prog, n, rx, x, b, l, q, under, env, h);
    } else {
      FolderPlaced(w, prog, n, rx, x, b, l, q);
      var st := State(under + [Iter(items[1..])] + [], env[x := Val(items[0])], h);
      var o := Eval(w, b, st.env, h);
      Simulates(w, prog, b, n + 2, l + 5, st);
      var junk := LeftBy(w, prog, b, n + 2, l + 5, st);
      if o.Done? {
        SimulatesFold(w, prog, n, rx, x, b, l, q, under, items[1..], o.env[rx := o.v.value], o.h);
      }
      FoldOne(w, prog, n, rx, x, b, l, q, under, items, env, h, junk);
    }
  }

  lemma FolderPlaced<H(!new)>(w: World<H>, prog: seq<IR>, n: nat, rx: VariableId, x: VariableId, b: Expr, l: nat, q: nat)
    requires hide *; FolderAt(w, prog, n, rx, x, b, l, q)
    ensures Placed(w, prog, b, n + 2, l + 5) && Yields(Discipline(b))
  {
    hide Placed, Discipline, Gen, LoopAt;
  }

  lemma FoldEnds<H(!new)>(w: World<H>, prog: seq<IR>, n: nat, rx: VariableId, x: VariableId, b: Expr, l: nat, q: nat,
                          under: seq<StackValue>, env: Env, h: H)
    requires FolderAt(w, prog, n, rx, x, b, l, q)
    ensures Folds(w, prog, rx, x, b, l, q, under, [], env, h)
  {
    hide Placed, Discipline, Gen, LoopAt, Reach, Fold, Eval, Weight, LeafPlan;
    FoldUnfold(w, rx, x, b, [], env, h);
    LoopTest(w, prog, n, x, l, q + 2, under, [], [], env, h);
    var st := State(under + [Iter([])] + [], env, h);
    LoadReaches(w, prog, q + 3, st);
    if rx in env && Plainish(env[rx]) {
      var end := Run(q + 4, st.(stack := st.stack + [env[rx]]));
      ReachTrans(w, prog, Run(l + 1, st), Run(q + 3, st), end);
      assert st.stack + [env[rx]] == under + [Iter([])] + [env[rx]];
      assert Fits(Some(env[rx]), [Iter([])], Shape(true, true, false));
    } else {
      ReachTrans(w, prog, Run(l + 1, st), Run(q + 3, st), Failed(h));
    }
  }

  lemma FoldOne<H(!new)>(w: World<H>, prog: seq<IR>, n: nat, rx: VariableId, x: VariableId, b: Expr, l: nat, q: nat,
                         under: seq<StackValue>, items: seq<ValueAndType>, env: Env, h: H, junk: seq<StackValue>)
    requires hide Discipline, Eval, Gen, Placed, RunN, Weight, FolderAt;
             FolderAt(w, prog, n, rx, x, b, l, q) && items != []
    requires var st := State(under + [Iter(items[1..])] + [], env[x := Val(items[0])], h);
             var o := Eval(w, b, st.env, h);
             if o.Fault? then Reach(w, prog, Run(l + 5, st), Failed(o.h))
             else Gives(o) && LeavesOn(w, prog, b, n + 2, l + 5, st, junk)
                  && Folds(w, prog, rx, x, b, l, q, under, items[1..], o.env[rx := o.v.value], o.h)
    ensures Folds(w, prog, rx, x, b, l, q, under, items, env, h)
  {
    hide Placed, Discipline, Gen, LoopAt, Reach, Fold, Eval, Leads, At, Exec, RecordPlan;
    FoldUnfold(w, rx, x, b, items, env, h);
    var inner := under + [Iter(items[1..])] + [];
    var st := State(inner, env[x := Val(items[0])], h);
    var o := Eval(w, b, st.env, h);
    var start := Run(l + 1, State(under + [Iter(items)] + [], env, h));
    LoopTest(w, prog, n, x, l, q + 2, under, items, [], env, h);
    if o.Fault? {
      ReachTrans(w, prog, start, Run(l + 5, st), Failed(o.h));
      FailsAs(w, prog, start, o.h, under, q + 4, Shape(true, true, false));
    } else {
      var out := Fold(w, rx, x, b, items[1..], o.env[rx := o.v.value], o.h);
      var again := Run(l + 1, State(inner, o.env[rx := o.v.value], o.h));
      var done := Run(q, State(inner + [o.v.value], o.env, o.h));
      assert inner + junk + [o.v.value] == inner + [o.v.value];
      ReachTrans(w, prog, start, Run(l + 5, st), done);
      FoldItem(w, prog, n, rx, x, l, q, inner, o.v.value, o.env, o.h);
      ReachTrans(w, prog, start, done, again);
      LeadsFrom(w, prog, start, again, under, q + 4, out, Shape(true, true, false));
    }
  }

  lemma {:induction false} SimulatesReduce<H(!new)>(w: World<H>, prog: seq<IR>, e: Expr, n: nat, pc: nat, st: State<H>)
    requires Placed(w, prog, e, n, pc) && e.kind.Reduce?
    ensures Computes(w, prog, e, n, pc, st)
    decreases Weight(e), 1, 0
  {
    hide Eval, Fold, Placed, Computes, Discipline, Gen, Weight, Folds, LoopAt, Reach, LeavesOn, FolderAt, ReductionAt,
         Iterated, Starts;
    LoopWeighs(e);
    var Reduce(rx, x, i, s, b) := e.kind;
    var gi, gs, gb := ReductionPlaced(w, prog, e, n, pc);
    Simulates(w, prog, i, gs.last, pc, st);
    var junk := LeftBy(w, prog, i, gs.last, pc, st);
    EvalReduction(w, e, st.env, st.h);
    var o := Eval(w, i, st.env, st.h);
    if o.Fault? {
      Fails(w, prog, e, n, pc, st, o.h);
    } else {
      var mid := State(st.stack + junk + [o.v.value], o.env, o.h);
      Simulates(w, prog, s, gb.last, pc + |gi.code|, mid);
      var none := LeftBy(w, prog, s, gb.last, pc + |gi.code|, mid);
      ReductionStarts(w, prog, e, n, pc, gi, gs, gb, st, junk, none);
      var u := Eval(w, s, o.env, o.h);
      if u.Fault? {
        Fails(w, prog, e, n, pc, st, u.h);
      } else {
        if Iterated(o.v.value).Some? {
          ReductionFolds(w, prog, e, n, pc, gi, gs, gb);
          var l := pc + |gi.code| + |gs.code| + 2;
          SimulatesFold(w, prog, n, rx, x, b, l, l + 5 + |gb.code|, st.stack + junk, IteratedItems(o.v.value),
                        u.env[rx := u.v.value], u.h);
        }
        ReductionDone(w, prog, e, n, pc, gi, gs, gb, st, junk);
      }
    }
  }

  lemma ReductionFolds<H(!new)>(w: World<H>, prog: seq<IR>, e: Expr, n: nat, pc: nat, gi: Code, gs: Code, gb: Code)
    requires hide ArgsFit, At, BlockDiscipline, ChunksWeight, Gen, OperandDiscipline, Ops, PlanOf, Weight, WeightAll,
                  Discipline, LoopAt;
             ReductionAt(prog, e, n, pc, gi, gs, gb)
    requires Placed(w, prog, e.kind.body, n + 2, pc + |gi.code| + |gs.code| + 7) && Neat(Discipline(e.kind.body))
    ensures var l := pc + |gi.code| + |gs.code| + 2;
            FolderAt(w, prog, n, e.kind.reduced, e.kind.iterated, e.kind.body, l, l + 5 + |gb.code|)
  {
    hide Placed, Discipline, Gen, LoopAt;
  }

  /** Iterable and start value are evaluated and the loop is entered. */
  ghost predicate Starts<H(!new)>(w: World<H>, prog: seq<IR>, e: Expr, pc: nat, l: nat, st: State<H>, junk: seq<StackValue>)
    requires hide Eval, Iterated, RunN, Starts, Weight; e.kind.Reduce?
  {
    var o := Eval(w, e.kind.iterable, st.env, st.h);
    && Gives(o) && NoSinks(junk)
    && var u := Eval(w, e.kind.init, o.env, o.h);
    && (if u.Fault? then Reach(w, prog, Run(pc, st), Failed(u.h))
        else
          && Gives(u)
          && if Iterated(o.v.value).Some? then
               Reach(w, prog, Run(pc, st),
                     Run(l + 1, State(st.stack + junk + [Iter(IteratedItems(o.v.value))] + [], u.env[e.kind.reduced := u.v.value], u.h)))
             else Reach(w, prog, Run(pc, st), Failed(u.h)))
  }

  lemma ReductionStarts<H(!new)>(w: World<H>, prog: seq<IR>, e: Expr, n: nat, pc: nat, gi: Code, gs: Code, gb: Code, st: State<H>,
                                 junk: seq<StackValue>, none: seq<StackValue>)
    requires hide Reach, Eval, Discipline, Gen; ReductionAt(prog, e, n, pc, gi, gs, gb)
    requires LeavesOn(w, prog, e.kind.iterable, gs.last, pc, st, junk) && Neat(Discipline(e.kind.init))
    requires var o := Eval(w, e.kind.iterable, st.env, st.h);
             Gives(o) &&
             var mid := State(st.stack + junk + [o.v.value], o.env, o.h);
             var u := Eval(w, e.kind.init, o.env, o.h);
             if u.Fault? then Reach(w, prog, Run(pc + |gi.code|, mid), Failed(u.h))
             else LeavesOn(w, prog, e.kind.init, gb.last, pc + |gi.code|, mid, none)
    ensures Starts(w, prog, e, pc, pc + |gi.code| + |gs.code| + 2, st, junk)
    ensures Eval(w, e.kind.init, Eval(w, e.kind.iterable, st.env, st.h).env, Eval(w, e.kind.iterable, st.env, st.h).h).Fault?
            ==> Reach(w, prog, Run(pc, st),
                      Failed(Eval(w, e.kind.init, Eval(w, e.kind.iterable, st.env, st.h).env, Eval(w, e.kind.iterable, st.env, st.h).h).h))
  {
    hide Placed, Discipline, Gen, LoopAt, Reach, Eval, Iterated, Weight, Step;
    var o := Eval(w, e.kind.iterable, st.env, st.h);
    var base := st.stack + junk;
    var mid := State(base + [o.v.value], o.env, o.h);
    var u := Eval(w, e.kind.init, o.env, o.h);
    var got := Run(pc + |gi.code|, mid);
    if u.Fault? {
      ReachTrans(w, prog, Run(pc, st), got, Failed(u.h));
    } else {
      var p := pc + |gi.code| + |gs.code|;
      var both := Run(p, State(base + [o.v.value] + [u.v.value], u.env, u.h));
      assert mid.stack + none + [u.v.value] == base + [o.v.value] + [u.v.value];
      ReachTrans(w, prog, Run(pc, st), got, both);
      EntersFold(w, prog, n, e.kind.reduced, e.kind.iterated, p, p + 9 + |gb.code|, base, o.v.value, u.v.value, u.env, u.h);
      if Iterated(o.v.value).Some? {
        var entered := State(base + [Iter(IteratedItems(o.v.value))] + [], u.env[e.kind.reduced := u.v.value], u.h);
        ReachTrans(w, prog, Run(pc, st), both, Run(p + 3, entered));
      } else {
        ReachTrans(w, prog, Run(pc, st), both, Failed(u.h));
      }
    }
  }

  lemma ReductionDone<H(!new)>(w: World<H>, prog: seq<IR>, e: Expr, n: nat, pc: nat, gi: Code, gs: Code, gb: Code, st: State<H>,
                               junk: seq<StackValue>)
    requires hide Reach, Eval, Discipline, Gen;
             Placed(w, prog, e, n, pc) && ReductionAt(prog, e, n, pc, gi, gs, gb) && Discipline(e) == Some(Shape(true, true, false))
    requires Starts(w, prog, e, pc, pc + |gi.code| + |gs.code| + 2, st, junk)
    requires var o := Eval(w, e.kind.iterable, st.env, st.h);
             Gives(o) &&
             var u := Eval(w, e.kind.init, o.env, o.h);
             var l := pc + |gi.code| + |gs.code| + 2;
             Gives(u) && (Iterated(o.v.value).Some? ==>
               Folds(w, prog, e.kind.reduced, e.kind.iterated, e.kind.body, l, l + 5 + |gb.code|, st.stack + junk,
                     IteratedItems(o.v.value), u.env[e.kind.reduced := u.v.value], u.h))
    ensures Computes(w, prog, e, n, pc, st)
  {
    hide Placed, Discipline, Gen, LoopAt, Reach, Fold, Eval, Leads, Iterated, Exec;
    EvalReduction(w, e, st.env, st.h);
    var o := Eval(w, e.kind.iterable, st.env, st.h);
    var u := Eval(w, e.kind.init, o.env, o.h);
    if Iterated(o.v.value).Some? {
      var l := pc + |gi.code| + |gs.code| + 2;
      var entered := State(st.stack + junk + [Iter(IteratedItems(o.v.value))] + [], u.env[e.kind.reduced := u.v.value], u.h);
      ContinueAs(w, prog, e, n, pc, st, Run(l + 1, entered), junk, Eval(w, e, st.env, st.h), Shape(true, true, false));
    } else {
      Fails(w, prog, e, n, pc, st, u.h);
    }
  }

  lemma LeftSinkless<H(!new)>(w: World<H>, prog: seq<IR>, e: Expr, n: nat, pc: nat, st: State<H>, junk: seq<StackValue>)
    requires LeavesOn(w, prog, e, n, pc, st, junk)
    ensures NoSinks(junk)
  {
    hide Eval, Placed, Reach, Gen, Discipline;
  }
}
