/** Programs without comprehensions and reductions: all jumps go forward, so every run ends and no instruction runs twice. */
module LoopFree {
  import opened Syntax
  import opened Machine
  import Desugar
  import opened ByteCode
  import Evaluation
  import Running
  import Simulation
  import Replay

  // ---------- code ----------

  /** No label stands at or before a jump to it. */
  ghost predicate Forward(code: seq<IR>) {
    forall i, j :: 0 <= j <= i < |code| && IsJump(code[i]) ==> code[j] != Label(code[i].target)
  }

  ghost predicate Inside(code: seq<IR>) {
    forall x :: x in code && IsJump(x) ==> Label(x.target) in code
  }

  lemma ForwardConcat(a: seq<IR>, b: seq<IR>)
    requires Forward(a) && Forward(b) && Inside(b) && Unique(a + b)
    ensures Forward(a + b)
  {
    var code := a + b;
    forall i, j | 0 <= j <= i < |code| && IsJump(code[i]) ensures code[j] != Label(code[i].target) {
      if i < |a| {
        assert a[j] != Label(a[i].target);
      } else if j >= |a| {
        assert b[j - |a|] != Label(b[i - |a|].target);
      } else {
        assert code[i] == b[i - |a|] && b[i - |a|] in b;
        var k :| 0 <= k < |b| && b[k] == Label(code[i].target);
        assert code[|a| + k] == b[k];
      }
    }
  }

  lemma NoJumpsForward(code: seq<IR>)
    requires forall x :: x in code ==> !IsJump(x)
    ensures Forward(code) && Inside(code)
  {
  }

  lemma InsideConcat(a: seq<IR>, b: seq<IR>)
    requires Inside(a) && Inside(b)
    ensures Inside(a + b)
  {
  }

  // ---------- expressions ----------

  /** No loop in the expression or in what it is rewritten to. */
  ghost predicate WithoutLoops(e: Expr)
    decreases Weight(e), 0, 0
  {
    hide *;
    PlanShrinks(e, 0);
    !e.kind.Comprehension? && !e.kind.Reduce? &&
    match PlanOf(e, 0)
    case Parts(chunks, _, _) => AllWithoutLoops(chunks)
    case Rewrite(to) => WithoutLoops(to)
    case Bad(_) => true
  }

  ghost predicate AllWithoutLoops(cs: seq<Chunk>)
    decreases ChunksWeight(cs), 1, |cs|
  {
    hide WithoutLoops, Weight;
    cs == [] || (AllWithoutLoops(cs[..|cs| - 1]) && WithoutLoops(cs[|cs| - 1].e))
  }

  lemma {:induction false} WithoutLoopsUnfold(e: Expr)
    requires hide *; WithoutLoops(e)
    ensures !e.kind.Comprehension? && !e.kind.Reduce?
    ensures PlanOf(e, 0).Parts? ==> AllWithoutLoops(PlanOf(e, 0).chunks)
    ensures PlanOf(e, 0).Rewrite? ==> WithoutLoops(PlanOf(e, 0).to)
  {
    hide PlanOf, Weight, AllWithoutLoops, ChunksWeight;
  }

  lemma {:induction false} CondWithoutLoops(c: Expr, l: Expr, r: Expr, n: nat)
    requires AllWithoutLoops(CondChunks(c, l, r, n))
    ensures WithoutLoops(c) && WithoutLoops(l) && WithoutLoops(r)
  {
    hide WithoutLoops, AllWithoutLoops;
    var cs := CondChunks(c, l, r, n);
    assert cs == ([] + [cs[0]] + [cs[1]]) + [cs[2]];
    LastWithoutLoops([] + [cs[0]] + [cs[1]], cs[2]);
    LastWithoutLoops([] + [cs[0]], cs[1]);
    LastWithoutLoops([], cs[0]);
  }

  lemma LastWithoutLoops(front: seq<Chunk>, last: Chunk)
    requires AllWithoutLoops(front + [last])
    ensures AllWithoutLoops(front) && WithoutLoops(last.e)
  {
    hide WithoutLoops, ChunksWeight, Weight;
    assert (front + [last])[..|front|] == front;
  }

  lemma PlanOfOthers(e: Expr, n: nat)
    requires hide *; !e.kind.Comprehension? && !e.kind.Reduce? && !e.kind.Cond?
    ensures PlanOf(e, n) == PlanOf(e, 0) && (PlanOf(e, n).Parts? ==> PlanOf(e, n).labels == 0)
  {
    hide PlanOf, Weight, Evaluation.Ops;
    if Evaluation.IsStrict(e) {
      Running.StrictPlan(e, n);
    } else {
      UnstrictPlan(e, n);
    }
  }

  lemma UnstrictPlan(e: Expr, n: nat)
    requires hide *; !Evaluation.IsStrict(e) && !e.kind.Comprehension? && !e.kind.Reduce? && !e.kind.Cond?
    ensures PlanOf(e, n) == PlanOf(e, 0) && (PlanOf(e, n).Parts? ==> PlanOf(e, n).labels == 0)
  {
    hide WitOf, Weight, Desugar.Match, Desugar.RangeSelection, LeafPlan, CallPlan;
  }

  /** The code of an expression without loops. */
  lemma {:induction false} GenForward(e: Expr, n: nat)
    requires hide *; WithoutLoops(e) && Gen(e, n).Ok?
    ensures Forward(Gen(e, n).value.code)
    decreases Weight(e), 0, 0
  {
    hide PlanOf, Weight, ChunksWeight, Gen, GenChunks, WithoutLoops, AllWithoutLoops, Tails, Forward, Inside, Unique,
         CodeGood;
    WithoutLoopsUnfold(e);
    GenUnfold(e, n);
    PlanShrinks(e, n);
    if e.kind.Cond? {
      Simulation.CondPlan(e, 0);
      CondWithoutLoops(e.kind.cond, e.kind.lhs, e.kind.rhs, 0);
      Simulation.CondWeighs(e);
      var code := Gen(e, n).value.code;
      Running0(code);
      var gc, gl, gr := Simulation.CondLayout(code, 0, e, n);
      GenForward(e.kind.cond, gl.last);
      GenForward(e.kind.lhs, gr.last);
      GenForward(e.kind.rhs, n + 2);
      CondForward(e, n, gc, gl, gr);
    } else {
      PlanOfOthers(e, n);
      match PlanOf(e, n)
      case Rewrite(to) => GenForward(to, n);
      case Parts(chunks, tail, labels) =>
        PlanGood(e, n);
        NoLabels(PlanOf(e, n), n);
        ChunksForward(chunks, n);
        TailForward(GenChunks(chunks, n).value.code, tail);
    }
  }

  lemma Running0(code: seq<IR>)
    ensures hide *; Running.At(code, 0, code)
  {
  }

  lemma TailForward(code: seq<IR>, tail: seq<IR>)
    requires Forward(code) && Unique(code) && LabelFree(tail)
    ensures Forward(code + tail)
  {
    hide Forward, Inside, Unique;
    NoJumpsForward(tail);
    LabelFreeUnique(tail);
    UniqueConcat(code, tail);
    DisjointLabelFree(code, tail);
    ForwardConcat(code, tail);
  }

  lemma LabelFreeUnique(tail: seq<IR>)
    requires LabelFree(tail)
    ensures Unique(tail)
  {
    assert forall i :: 0 <= i < |tail| ==> tail[i] in tail;
  }

  lemma DisjointLabelFree(code: seq<IR>, tail: seq<IR>)
    requires LabelFree(tail)
    ensures Disjoint(code, tail)
  {
  }

  /** Unique and closed, as all generated code is. */
  lemma GenInside(e: Expr, n: nat)
    requires hide *; Gen(e, n).Ok?
    ensures Unique(Gen(e, n).value.code) && Inside(Gen(e, n).value.code)
  {
    hide Gen;
    GenLabels(e, n);
  }

  lemma {:induction false} CondForward(e: Expr, n: nat, gc: Code, gl: Code, gr: Code)
    requires hide *; e.kind.Cond? && Gen(e, n).Ok?
    requires Gen(e.kind.rhs, n + 2) == Ok(gr) && Gen(e.kind.lhs, gr.last) == Ok(gl) && Gen(e.kind.cond, gl.last) == Ok(gc)
    requires Forward(gc.code) && Forward(gl.code) && Forward(gr.code)
    requires |Gen(e, n).value.code| == |gc.code| + |gl.code| + |gr.code| + 4
    requires Running.At(Gen(e, n).value.code, 0, gc.code) && Running.At(Gen(e, n).value.code, |gc.code| + 1, gl.code)
    requires Running.At(Gen(e, n).value.code, |gc.code| + |gl.code| + 3, gr.code)
    requires var code := Gen(e, n).value.code; var p2 := |gc.code| + 1 + |gl.code|;
             code[|gc.code|] == JumpIfFalse(n + 1) && code[p2] == Jump(n + 2) && code[p2 + 1] == Label(n + 1)
             && code[|code| - 1] == Label(n + 2)
    ensures Forward(Gen(e, n).value.code)
  {
    hide Gen, Forward, Inside, Unique;
    var code := Gen(e, n).value.code;
    GenInside(e, n);
    GenInside(e.kind.lhs, gr.last);
    GenInside(e.kind.rhs, n + 2);
    var d := gr.code + [Label(n + 2)];
    var c := [Jump(n + 2), Label(n + 1)] + d;
    var b := gl.code + c;
    var a := [JumpIfFalse(n + 1)] + b;
    assert code == gc.code + a;
    UniqueConcat(gc.code, a);
    UniqueConcat([JumpIfFalse(n + 1)], b);
    UniqueConcat(gl.code, c);
    UniqueConcat([Jump(n + 2), Label(n + 1)], d);
    NoJumpsForward([Label(n + 2)]);
    ForwardConcat(gr.code, [Label(n + 2)]);
    InsideConcat(gr.code, [Label(n + 2)]);
    StartsForward(n);
    ForwardConcat([Jump(n + 2), Label(n + 1)], d);
    CondInside(n, gl.code, gr.code);
    ForwardConcat(gl.code, c);
    ForwardConcat([JumpIfFalse(n + 1)], b);
    ForwardConcat(gc.code, a);
  }

  lemma StartsForward(n: nat)
    ensures hide *; Forward([Jump(n + 2), Label(n + 1)]) && Forward([JumpIfFalse(n + 1)])
  {
  }

  lemma CondInside(n: nat, l: seq<IR>, r: seq<IR>)
    requires hide *; Inside(l) && Inside(r)
    ensures var c := [Jump(n + 2), Label(n + 1)] + (r + [Label(n + 2)]);
            Inside(c) && Inside(l + c) && Inside([JumpIfFalse(n + 1)] + (l + c))
  {
    var c := [Jump(n + 2), Label(n + 1)] + (r + [Label(n + 2)]);
    assert c[1] == Label(n + 1) && c[|c| - 1] == Label(n + 2);
    assert Label(n + 1) in c && Label(n + 2) in c;
  }

  lemma {:induction false} ChunksForward(cs: seq<Chunk>, n: nat)
    requires hide *; AllWithoutLoops(cs) && GenChunks(cs, n).Ok? && LabelFree(Tails(cs))
    ensures Forward(GenChunks(cs, n).value.code) && Unique(GenChunks(cs, n).value.code)
    decreases ChunksWeight(cs), 1, |cs|
  {
    hide Weight, Gen, WithoutLoops, Forward, Inside, Unique, PlanOf, CodeGood;
    if cs == [] {
      EmptyForward();
    } else {
      var front, last := cs[..|cs| - 1], cs[|cs| - 1];
      var g := Gen(last.e, n).value;
      var f := GenChunks(front, g.last).value;
      GenForward(last.e, n);
      ChunksForward(front, g.last);
      GenInside(last.e, n);
      TailForward(g.code, last.tail);
      NoJumpsForward(last.tail);
      InsideConcat(g.code, last.tail);
      ChunksUnique(cs, n);
      ForwardConcat(f.code, g.code + last.tail);
    }
  }

  lemma EmptyForward()
    ensures Forward([]) && Unique([])
  {
  }

  lemma ChunksUnique(cs: seq<Chunk>, n: nat)
    requires hide *; GenChunks(cs, n).Ok? && LabelFree(Tails(cs))
    ensures Unique(GenChunks(cs, n).value.code)
  {
    hide Gen, GenChunks, Tails;
    assert forall i :: 0 <= i < |Tails(cs)| ==> Tails(cs)[i] in Tails(cs);
    ChunksLabels(cs, 0, n);
  }

  // ---------- runs ----------

  /** Every step of such a program goes on to a later instruction. */
  lemma StepForward<H>(w: World<H>, prog: seq<IR>, c: Config<H>)
    requires hide *; Forward(prog) && c.Run? && c.pc < |prog| && Step(w, prog, c).Run?
    ensures c.pc < Step(w, prog, c).pc <= |prog|
  {
    hide Exec, FindLabel;
    if Exec(w, prog[c.pc], c.pc + 1, c.st).Goto? {
      Replay.GotoIsJump(w, prog[c.pc], c.pc + 1, c.st);
    }
  }

  /** So it ends after at most as many steps as there are instructions left. */
  lemma {:induction false} EndsInTime<H>(w: World<H>, prog: seq<IR>, c: Config<H>)
    requires hide *; Forward(prog) && (c.Run? ==> c.pc <= |prog|)
    ensures Halted(prog, RunN(w, prog, c, |prog|))
    ensures c.Run? ==> Halted(prog, RunN(w, prog, c, |prog| - c.pc))
    decreases if c.Run? then |prog| - c.pc else 0
  {
    hide Step;
    if c.Failed? || c.pc >= |prog| {
      HaltedStays(w, prog, c, |prog|);
      HaltedStays(w, prog, c, 0);
    } else {
      var next := Step(w, prog, c);
      var left := |prog| - c.pc;
      if next.Failed? {
        HaltedStays(w, prog, next, left - 1);
      } else {
        StepForward(w, prog, c);
        EndsInTime(w, prog, next);
        RunNPlus(w, prog, next, |prog| - next.pc, left - 1 - (|prog| - next.pc));
        HaltedStays(w, prog, RunN(w, prog, next, |prog| - next.pc), left - 1 - (|prog| - next.pc));
      }
      RunNPlus(w, prog, c, left, |prog| - left);
      HaltedStays(w, prog, RunN(w, prog, c, left), |prog| - left);
    }
  }

  /** For programs without loops the replay needs no further condition. */
  lemma NoCallInNoLoop(prog: seq<IR>)
    requires Forward(prog)
    ensures Replay.NoCallInLoop(prog)
  {
  }
}
