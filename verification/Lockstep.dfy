/** Two machines with different hosts, or with programs that differ in their labels, running side by side. */
module Lockstep {
  import opened Syntax
  import opened Values
  import opened Machine
  import ByteCode

  predicate TalksToHost(ir: IR) { ir.InvokeFunction? || ir.GenerateName? }

  /** The same effect on stack and variables, none on the hosts. */
  predicate SameEffect<H(==), K(==)>(a: Effect<H>, b: Effect<K>, h: H, k: K) {
    match (a, b)
    case (Next(s), Next(t)) => s.stack == t.stack && s.env == t.env && s.h == h && t.h == k
    case (Goto(l, s), Goto(m, t)) => l == m && s.stack == t.stack && s.env == t.env && s.h == h && t.h == k
    case (Stop(x), Stop(y)) => x == h && y == k
    case _ => false
  }

  lemma {:induction false} ComputesAlike<H, K>(w: World<H>, v: World<K>, ir: IR, stack: seq<StackValue>, env: Env, h: H,
                                               k: K)
    requires w.text == v.text
    ensures SameEffect(Machine.Compute(w, ir, State(stack, env, h)), Machine.Compute(v, ir, State(stack, env, k)), h, k)
  {
    hide Arity, Operation, TopN;
  }

  lemma {:induction false} LoopStepsAlike<H, K>(stack: seq<StackValue>, env: Env, h: H, k: K)
    ensures SameEffect(CheckEmpty(State(stack, env, h)), CheckEmpty(State(stack, env, k)), h, k)
    ensures SameEffect(Advance(State(stack, env, h)), Advance(State(stack, env, k)), h, k)
    ensures SameEffect(AddToSink(State(stack, env, h)), AddToSink(State(stack, env, k)), h, k)
    ensures SameEffect(SinkAsList(State(stack, env, h)), SinkAsList(State(stack, env, k)), h, k)
  {
    hide TopSink, ValuesOf, MkVal;
  }

  lemma {:induction false} ExecAlike<H, K>(w: World<H>, v: World<K>, ir: IR, p: nat, q: nat, stack: seq<StackValue>,
                                           env: Env, h: H, k: K)
    requires w.text == v.text && !TalksToHost(ir)
    ensures SameEffect(Exec(w, ir, p, State(stack, env, h)), Exec(v, ir, q, State(stack, env, k)), h, k)
  {
    hide Machine.Compute, CheckEmpty, Advance, AddToSink, SinkAsList, Invoke, GenerateNameFor, IsBool;
    LoopStepsAlike(stack, env, h, k);
    ComputesAlike(w, v, ir, stack, env, h, k);
  }

  // ---------- instructions that talk to the host ----------

  lemma {:induction false} NameAsks<H>(w: World<H>, ir: IR, p: nat, st: State<H>)
    requires hide *; ir.GenerateName?
    ensures Exec(w, ir, p, st)
            == if ir.worker.Some? && AsInstanceVariable(ir.worker.value) in st.env then
                 var x := st.env[AsInstanceVariable(ir.worker.value)];
                 if x.Val? then Next(st.(stack := st.stack + [x])) else Stop(st.h)
               else
                 var (h, name) := w.name(st.h);
                 Next(State(st.stack + [Val(StrVT(name))], st.env, h))
  {
    hide AsInstanceVariable, Machine.Compute, Invoke, SinkAsList;
  }

  // ---------- labels moved ----------

  function Moved<H>(e: Effect<H>, k: nat): Effect<H> {
    match e case Goto(l, st) => Goto(l + k, st) case _ => e
  }

  lemma {:induction false} ExecMoved<H>(w: World<H>, ir: IR, k: nat, p: nat, st: State<H>)
    ensures Exec(w, ByteCode.Relabel(ir, k), p, st) == Moved(Exec(w, ir, p, st), k)
  {
    hide Machine.Compute, CheckEmpty, Advance, AddToSink, SinkAsList, Invoke, GenerateNameFor, IsBool;
    if ir.Jump? || ir.JumpIfFalse? || ir.Label? {
    } else {
      OnlyJumps(w, ir, p, st);
    }
  }

  lemma {:induction false} OnlyJumps<H>(w: World<H>, ir: IR, p: nat, st: State<H>)
    requires !ByteCode.IsJump(ir)
    ensures !Exec(w, ir, p, st).Goto?
  {
    hide Operation, Arity, Resolve, TopSink, Values.Compute, TopN;
  }

  lemma {:induction false} FindMoved(code: seq<IR>, k: nat, more: seq<IR>, l: nat)
    requires hide *; FindLabel(code, l).Some?
    ensures FindLabel(ByteCode.Shift(code, k) + more, l + k) == FindLabel(code, l)
    decreases |code|
  {
    var moved := ByteCode.Shift(code, k) + more;
    assert moved[0] == ByteCode.Relabel(code[0], k);
    if code[0] != Label(l) {
      assert moved[1..] == ByteCode.Shift(code[1..], k) + more;
      FindMoved(code[1..], k, more, l);
    }
  }
}
