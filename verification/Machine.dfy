/** The stack machine: one step per instruction, runs, the cursor, and the interpreter loop. */
module Machine {
  import opened Syntax
  import opened Values

  datatype CallRecord = CallRecord(component: int, worker: string, name: string, args: seq<ValueAndType>, result: Option<WitType>)

  /** Everything outside the machine: the host that is called (with the position of the calling instruction), the
      generator of instance names, and the printing of values. A call answers None on failure and Some(None) for unit. */
  datatype World<!H> = World(
    invoke: (H, nat, CallRecord) -> (H, Option<Option<ValueAndType>>),
    name: H -> (H, string),
    text: ValueAndType -> string)

  type Env = map<VariableId, StackValue>

  datatype State<H> = State(stack: seq<StackValue>, env: Env, h: H)

  datatype Effect<H> = Next(st: State<H>) | Goto(target: nat, st: State<H>) | Stop(h: H)

  // ---------- value instructions ----------

  /** How many values an instruction takes, for those that only compute a value. */
  function Arity(ir: IR): Option<nat> {
    hide *;
    match ir
    case PushLit(_) => Some(0)
    case PushFlag(_) => Some(0)
    case CreateAndPushRecord(_) => Some(0)
    case UpdateRecord(_) => Some(2)
    case PushList(_, n) => Some(n)
    case PushTuple(_, n) => Some(n)
    case PushSome(_) => Some(1)
    case PushNone(_) => Some(0)
    case PushOkResult(_) => Some(1)
    case PushErrResult(_) => Some(1)
    case SelectFieldIR(_) => Some(1)
    case SelectIndexV1 => Some(2)
    case CompareIR(_) => Some(2)
    case MathIR(_, _) => Some(2)
    case Deconstruct => Some(1)
    case CreateFunctionName(_) => Some(0)
    case PushVariant(name, t) => Some(if CasePayload(t, name).Some? then 1 else 0)
    case PushEnum(_, _) => Some(0)
    case GetTagIR => Some(1)
    case ConcatIR(n) => Some(n)
    case Negate => Some(1)
    case ToIterator => Some(1)
    case CreateSink(_) => Some(0)
    case LengthIR => Some(1)
    case _ => None
  }

  /** The value computed from the popped ones, the first popped coming first. */
  function Operation(text: ValueAndType -> string, ir: IR, vs: seq<StackValue>): Option<StackValue>
    requires hide Operation, UpdateField; Arity(ir) == Some(|vs|)
  {
    match ir
    case PushLit(vt) => Some(Val(vt))
    case PushFlag(vt) => Some(Val(vt))
    case CreateAndPushRecord(t) => EmptyRecord(t)
    case UpdateRecord(f) => UpdateField(f, vs[0], vs[1])
    case PushList(t, _) => MakeList(t, vs)
    case PushTuple(t, _) => MakeTuple(t, vs)
    case PushSome(t) => MakeSomeOf(t, vs[0])
    case PushNone(t) => MakeNoneOf(t)
    case PushOkResult(t) => MakeOkOf(t, vs[0])
    case PushErrResult(t) => MakeErrOf(t, vs[0])
    case SelectFieldIR(f) => SelectFieldOf(f, vs[0])
    case SelectIndexV1 => SelectItem(vs[0], vs[1])
    case CompareIR(op) => CompareValues(op, vs[0], vs[1])
    case MathIR(op, t) => MathValues(op, t, vs[0], vs[1])
    case Deconstruct => UnwrapValue(vs[0])
    case CreateFunctionName(s) => Some(Val(StrVT(s)))
    case PushVariant(name, t) => MakeVariant(name, t, if |vs| == 1 then Some(vs[0]) else None)
    case PushEnum(name, t) => MakeEnum(name, t)
    case GetTagIR => TagOf(vs[0])
    case ConcatIR(_) => Concatenated(text, vs)
    case Negate => Negated(vs[0])
    case ToIterator => Iterated(vs[0])
    case CreateSink(t) => SinkFor(t)
    case LengthIR => LengthOf(vs[0])
    case _ => None
  }

  /** The last n values of a stack, the top first. */
  function TopN(stack: seq<StackValue>, n: nat): (vs: seq<StackValue>)
    requires n <= |stack|
    ensures |vs| == n
  {
    seq(n, i requires 0 <= i < n => stack[|stack| - 1 - i])
  }

  // ---------- instructions with effects ----------

  function InstanceName(text: ValueAndType -> string, vt: ValueAndType): Option<string> {
    match GetLiteral(vt)
    case None => None
    case Some(LStr(s)) => Some(s)
    case Some(LBool(b)) => Some(if b then "true" else "false")
    case Some(LNum(_)) => Some(text(vt))
  }

  /** Which instance is called, and whether the receiver becomes the first argument. */
  function Resolve(text: ValueAndType -> string, r: InstanceVariable, env: Env, args: seq<ValueAndType>)
      : Option<(string, seq<ValueAndType>)> {
    hide *;
    match r
    case WitWorker(v) =>
      if v in env && env[v].Val? then
        var name := InstanceName(text, env[v].vt);
        if name.Some? then Some((name.value, args)) else None
      else None
    case WitResource(v) =>
      if v == Global(STATIC_WIT_RESOURCE) then Some((STATIC_WIT_RESOURCE, args))
      else if v in env && env[v].Val? && env[v].vt.value.VHandle? then
        var handle := env[v].vt.value;
        Some((if handle.instance != "" then handle.instance else AfterLastSlash(handle.uri), [env[v].vt] + args))
      else None
  }

  /** The function name lies on top of the arguments. */
  function Invoke<H>(w: World<H>, ir: IR, position: nat, st: State<H>): Effect<H>
    requires hide *; ir.InvokeFunction?
  {
    var n := |st.stack|;
    if n < ir.size + 1 then Stop(st.h) else
    var vs := TopN(st.stack[..n - 1], ir.size);
    var args := AllVals(vs);
    match st.stack[n - 1]
    case Val(VT(VStr(name), _)) =>
      if args.None? then Stop(st.h) else
      var callee := Resolve(w.text, ir.receiver, st.env, args.value);
      if callee.None? then Stop(st.h) else
      var (h, answer) := w.invoke(st.h, position, CallRecord(ir.component, callee.value.0, name, callee.value.1, ir.result));
      if answer.None? then Stop(h)
      else
        var v := if answer.value.Some? then Val(answer.value.value) else Unit;
        Next(State(st.stack[..n - 1 - ir.size] + [v], st.env, h))
    case _ => Stop(st.h)
  }

  function GenerateNameFor<H>(w: World<H>, v: Option<VariableId>, st: State<H>): Effect<H> {
    hide *;
    var known := v.Some? && AsInstanceVariable(v.value) in st.env;
    if known then
      var x := st.env[AsInstanceVariable(v.value)];
      if x.Val? then Next(st.(stack := st.stack + [x])) else Stop(st.h)
    else
      var (h, name) := w.name(st.h);
      Next(State(st.stack + [Val(StrVT(name))], st.env, h))
  }

  /** On an iterator (also one below a sink) the flag says that there is something left; a list is used up. */
  function CheckEmpty<H>(st: State<H>): Effect<H> {
    hide *;
    var n := |st.stack|;
    if n == 0 then Stop(st.h) else
    match st.stack[n - 1]
    case Iter(items) => Next(st.(stack := st.stack + [MkVal(items != [])]))
    case Sink(_, _) =>
      if n >= 2 && st.stack[n - 2].Iter? then Next(st.(stack := st.stack + [MkVal(st.stack[n - 2].items != [])]))
      else Stop(st.h)
    case Val(VT(VList(items), _)) => Next(st.(stack := st.stack[..n - 1] + [MkVal(items == [])]))
    case _ => Stop(st.h)
  }

  function Advance<H>(st: State<H>): Effect<H> {
    var n := |st.stack|;
    if n == 0 then Stop(st.h) else
    match st.stack[n - 1]
    case Iter(items) =>
      if items == [] then Stop(st.h)
      else Next(st.(stack := st.stack[..n - 1] + [Iter(items[1..]), Val(items[0])]))
    case Sink(_, _) =>
      if n >= 2 && st.stack[n - 2].Iter? && st.stack[n - 2].items != [] then
        var items := st.stack[n - 2].items;
        Next(st.(stack := st.stack[..n - 2] + [Iter(items[1..]), st.stack[n - 1], Val(items[0])]))
      else Stop(st.h)
    case _ => Stop(st.h)
  }

  /** The position of the topmost sink. */
  function TopSink(stack: seq<StackValue>): (i: Option<nat>)
    ensures i.Some? ==> i.value < |stack| && stack[i.value].Sink?
    ensures i.Some? ==> forall j :: i.value < j < |stack| ==> !stack[j].Sink?
  {
    if stack == [] then None
    else if stack[|stack| - 1].Sink? then Some(|stack| - 1)
    else TopSink(stack[..|stack| - 1])
  }

  /** Whatever lies above the sink is dropped. A top that is not a value is dropped alone. */
  function AddToSink<H>(st: State<H>): Effect<H> {
    var n := |st.stack|;
    if n == 0 then Next(st) else
    var below := st.stack[..n - 1];
    if !st.stack[n - 1].Val? then Next(st.(stack := below)) else
    var i := TopSink(below);
    if i.None? then Stop(st.h)
    else Next(st.(stack := below[..i.value] + [Sink(below[i.value].items + [st.stack[n - 1].vt], below[i.value].elem)]))
  }

  function SinkAsList<H>(st: State<H>): Effect<H> {
    hide *;
    var i := TopSink(st.stack);
    if i.None? then Stop(st.h)
    else
      var Sink(items, elem) := st.stack[i.value];
      Next(st.(stack := st.stack[..i.value] + [Val(VT(VList(ValuesOf(items)), WList(elem)))]))
  }

  function Exec<H>(w: World<H>, ir: IR, position: nat, st: State<H>): Effect<H> {
    hide *;
    var n := |st.stack|;
    match ir
    case AssignVar(v) =>
      if n == 0 then Stop(st.h) else Next(State(st.stack[..n - 1], st.env[v := st.stack[n - 1]], st.h))
    case LoadVar(v) =>
      if v in st.env && (st.env[v].Val? || st.env[v].Unit?) then Next(st.(stack := st.stack + [st.env[v]])) else Stop(st.h)
    case InvokeFunction(_, _, _, _) => Invoke(w, ir, position, st)
    case GenerateName(v) => GenerateNameFor(w, v, st)
    case ThrowIR(_) => Stop(st.h)
    case IsEmpty => CheckEmpty(st)
    case AdvanceIterator => Advance(st)
    case PushToSink => AddToSink(st)
    case SinkToList => SinkAsList(st)
    case JumpIfFalse(l) =>
      if n == 0 then Stop(st.h)
      else if IsBool(st.stack[n - 1], true) then Next(st.(stack := st.stack[..n - 1]))
      else if IsBool(st.stack[n - 1], false) then Goto(l, st.(stack := st.stack[..n - 1]))
      else Stop(st.h)
    case Jump(l) => Goto(l, st)
    case Label(_) => Next(st)
    case _ => Compute(w, ir, st)
  }

  /** A value instruction replaces its arguments by its result. */
  function Compute<H>(w: World<H>, ir: IR, st: State<H>): Effect<H> {
    hide *;
    var n := |st.stack|;
    var k := Arity(ir);
    if k.None? || k.value > n then Stop(st.h) else
    var v := Operation(w.text, ir, TopN(st.stack, k.value));
    if v.None? then Stop(st.h) else Next(st.(stack := st.stack[..n - k.value] + [v.value]))
  }

  /** The call an instruction makes, and the stack below its operands. */
  function Asked(text: ValueAndType -> string, ir: IR, stack: seq<StackValue>, env: Env): Option<(CallRecord, seq<StackValue>)>
    requires hide *; ir.InvokeFunction?
  {
    var n := |stack|;
    if n < ir.size + 1 then None else
    var args := AllVals(TopN(stack[..n - 1], ir.size));
    match stack[n - 1]
    case Val(VT(VStr(name), _)) =>
      if args.None? then None else
      var callee := Resolve(text, ir.receiver, env, args.value);
      if callee.None? then None
      else Some((CallRecord(ir.component, callee.value.0, name, callee.value.1, ir.result), stack[..n - 1 - ir.size]))
    case _ => None
  }

  function AnswerValue(a: Option<ValueAndType>): StackValue { if a.Some? then Val(a.value) else Unit }

  lemma {:induction false} InvokeAsks<H>(w: World<H>, ir: IR, p: nat, st: State<H>)
    requires hide *; ir.InvokeFunction?
    ensures Exec(w, ir, p, st)
            == var q := Asked(w.text, ir, st.stack, st.env);
               if q.None? then Stop(st.h) else
               var (h, a) := w.invoke(st.h, p, q.value.0);
               if a.None? then Stop(h) else Next(State(q.value.1 + [AnswerValue(a.value)], st.env, h))
  {
    hide Resolve, AllVals, TopN, Compute, SinkAsList;
  }

  // ---------- runs ----------

  /** The position of the first label with the given index. */
  function FindLabel(prog: seq<IR>, l: nat): (i: Option<nat>)
    ensures hide *; i.Some? ==> i.value < |prog| && prog[i.value] == Label(l)
    ensures i.Some? ==> forall j :: 0 <= j < i.value ==> prog[j] != Label(l)
    ensures i.None? ==> Label(l) !in prog
  {
    if prog == [] then None
    else if prog[0] == Label(l) then Some(0)
    else var i := FindLabel(prog[1..], l); if i.Some? then Some(i.value + 1) else None
  }

  /** A machine at a position, or one that has reported an error. */
  datatype Config<H> = Run(pc: nat, st: State<H>) | Failed(h: H)

  /** The instruction is fetched before it is executed, so the position it sees is one past its index. */
  function Step<H>(w: World<H>, prog: seq<IR>, c: Config<H>): Config<H> {
    hide *;
    if c.Failed? || c.pc >= |prog| then c else
    match Exec(w, prog[c.pc], c.pc + 1, c.st)
    case Next(st) => Run(c.pc + 1, st)
    case Goto(l, st) =>
      var i := FindLabel(prog, l);
      if i.Some? then Run(i.value + 1, st) else Failed(st.h)
    case Stop(h) => Failed(h)
  }

  function RunN<H>(w: World<H>, prog: seq<IR>, c: Config<H>, n: nat): Config<H>
    decreases n
  {
    hide *;
    if n == 0 then c else RunN(w, prog, Step(w, prog, c), n - 1)
  }

  predicate Halted<H>(prog: seq<IR>, c: Config<H>) {
    c.Failed? || c.pc >= |prog|
  }

  ghost predicate Reach<H(!new)>(w: World<H>, prog: seq<IR>, a: Config<H>, b: Config<H>) {
    exists n: nat :: RunN(w, prog, a, n) == b
  }

  lemma {:induction false} RunNPlus<H>(w: World<H>, prog: seq<IR>, c: Config<H>, m: nat, n: nat)
    ensures hide *; RunN(w, prog, c, m + n) == RunN(w, prog, RunN(w, prog, c, m), n)
    decreases m
  {
    hide Step;
    if m > 0 {
      RunNPlus(w, prog, Step(w, prog, c), m - 1, n);
    }
  }

  lemma ReachTrans<H(!new)>(w: World<H>, prog: seq<IR>, a: Config<H>, b: Config<H>, c: Config<H>)
    requires Reach(w, prog, a, b) && Reach(w, prog, b, c)
    ensures Reach(w, prog, a, c)
  {
    hide Step;
    var m: nat :| RunN(w, prog, a, m) == b;
    var n: nat :| RunN(w, prog, b, n) == c;
    RunNPlus(w, prog, a, m, n);
    assert RunN(w, prog, a, m + n) == c;
  }

  lemma ReachRefl<H(!new)>(w: World<H>, prog: seq<IR>, a: Config<H>)
    ensures Reach(w, prog, a, a)
  {
    hide Step;
    assert RunN(w, prog, a, 0) == a;
  }

  lemma ReachStep<H(!new)>(w: World<H>, prog: seq<IR>, a: Config<H>)
    ensures Reach(w, prog, a, Step(w, prog, a))
  {
    hide Step;
    assert RunN(w, prog, a, 1) == RunN(w, prog, Step(w, prog, a), 0);
  }

  /** A halted machine stays as it is, so a run has at most one end. */
  lemma {:induction false} HaltedStays<H>(w: World<H>, prog: seq<IR>, c: Config<H>, n: nat)
    requires Halted(prog, c)
    ensures RunN(w, prog, c, n) == c
    decreases n
  {
    hide Exec;
    if n > 0 {
      HaltedStays(w, prog, Step(w, prog, c), n - 1);
    }
  }

  lemma {:induction false} HaltsOnce<H>(w: World<H>, prog: seq<IR>, c: Config<H>, m: nat, n: nat)
    requires Halted(prog, RunN(w, prog, c, m)) && Halted(prog, RunN(w, prog, c, n))
    ensures RunN(w, prog, c, m) == RunN(w, prog, c, n)
  {
    hide Step;
    if m <= n {
      RunNPlus(w, prog, c, m, n - m);
      HaltedStays(w, prog, RunN(w, prog, c, m), n - m);
    } else {
      RunNPlus(w, prog, c, n, m - n);
      HaltedStays(w, prog, RunN(w, prog, c, n), m - n);
    }
  }

  // ---------- the result of a run ----------

  datatype RibResult = RibUnit | RibVal(vt: ValueAndType)

  /** After the last instruction: nothing for a binding, else the top of the stack if it is a result at all. */
  function Finish<H>(prog: seq<IR>, c: Config<H>): Option<RibResult> {
    hide *;
    if c.Failed? then None
    else if prog != [] && prog[|prog| - 1].AssignVar? then Some(RibUnit)
    else if c.st.stack == [] then Some(RibUnit)
    else
      match c.st.stack[|c.st.stack| - 1]
      case Unit => Some(RibUnit)
      case Val(vt) => Some(RibVal(vt))
      case _ => None
  }

  function HostOf<H>(c: Config<H>): H { if c.Failed? then c.h else c.st.h }

  class Cursor {
    var byteCode: seq<IR>
    var position: nat

    constructor (prog: seq<IR>)
      ensures byteCode == prog && position == 0
    {
      byteCode, position := prog, 0;
    }

    method GetInstruction() returns (ir: Option<IR>)
      modifies this`position
      ensures old(position) < |byteCode| ==> ir == Some(byteCode[old(position)]) && position == old(position) + 1
      ensures old(position) >= |byteCode| ==> ir.None? && position == old(position)
    {
      if position < |byteCode| {
        ir := Some(byteCode[position]);
        position := position + 1;
      } else {
        ir := None;
      }
    }

    /** Scans for the label from the start and goes behind the first one found. */
    method MoveTo(l: nat) returns (ok: bool)
      modifies this`position
      ensures hide *; ok <==> FindLabel(byteCode, l).Some?
      ensures position == if ok then FindLabel(byteCode, l).value + 1 else old(position)
    {
      var i := 0;
      while i < |byteCode|
        invariant 0 <= i <= |byteCode|
        invariant forall j :: 0 <= j < i ==> byteCode[j] != Label(l)
        invariant position == old(position)
      {
        if byteCode[i] == Label(l) {
          position := i + 1;
          return true;
        }
        i := i + 1;
      }
      return false;
    }
  }

  /** The interpreter loop, for a program whose run comes to an end. */
  method Interpret<H(!new)>(w: World<H>, prog: seq<IR>, input: Env, h: H, ghost steps: nat)
      returns (result: Option<RibResult>, after: H)
    requires hide *; Halted(prog, RunN(w, prog, Run(0, State([], input, h)), steps))
    ensures result == Finish(prog, RunN(w, prog, Run(0, State([], input, h)), steps))
    ensures after == HostOf(RunN(w, prog, Run(0, State([], input, h)), steps))
  {
    hide Exec, FindLabel;
    var cursor := new Cursor(prog);
    var st := State([], input, h);
    ghost var left := steps;
    while true
      invariant fresh(cursor) && cursor.byteCode == prog
      invariant RunN(w, prog, Run(cursor.position, st), left) == RunN(w, prog, Run(0, State([], input, h)), steps)
      decreases left
    {
      var at := cursor.position;
      HaltedStays(w, prog, Failed(st.h), left);
      if at >= |prog| {
        HaltedStays(w, prog, Run(at, st), left);
      }
      var ir := cursor.GetInstruction();
      if ir.None? {
        break;
      }
      match Exec(w, ir.value, cursor.position, st) {
        case Next(s) =>
          st := s;
        case Goto(l, s) =>
          var ok := cursor.MoveTo(l);
          if !ok {
            HaltedStays(w, prog, Failed(s.h), left - 1);
            return None, s.h;
          }
          st := s;
        case Stop(h') =>
          HaltedStays(w, prog, Failed(h'), left - 1);
          return None, h';
      }
      left := left - 1;
    }
    after := st.h;
    result := Finish(prog, Run(cursor.position, st));
  }
}
