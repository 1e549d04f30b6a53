/** What expressions mean, without stack, labels or jumps; and a static discipline for what their code leaves behind. */
module Evaluation {
  import opened Syntax
  import opened Values
  import opened Machine
  import opened ByteCode

  /** A value or nothing (for bindings), the variables and the host afterwards; or an error after some host calls. */
  datatype Outcome<H> = Done(v: Option<StackValue>, env: Env, h: H) | Fault(h: H)

  datatype Outcomes<H> = AllDone(vs: seq<StackValue>, env: Env, h: H) | AllFault(h: H)

  datatype Answer<H> = Answer(v: StackValue, h: H) | NoAnswer(h: H)

  function Given<H>(v: Option<StackValue>, h: H): Answer<H> {
    if v.Some? then Answer(v.value, h) else NoAnswer(h)
  }

  // ---------- operands and their combination ----------

  /** Expressions whose operands are all evaluated, and then combined. */
  predicate IsStrict(e: Expr) {
    match e.kind
    case Atom(_) => true
    case Unary(_, _) => true
    case Binary(op, _, _) => op.Compare? || op.Math?
    case Record(_) => true
    case ListOf(_, _) => true
    case SelectIndex(_, i) => !i.ty.inner.TRange?
    case Call(_, _) => true
    case Range(_, _, _) => true
    case _ => false
  }

  /** The operands in the order of their evaluation: from the right to the left, except for ranges. */
  function Ops(e: Expr): seq<Expr> {
    hide *;
    match e.kind
    case Unary(_, a) => [a]
    case Binary(_, l, r) => [r, l]
    case Record(fs) => Reverse(Exprs(fs))
    case ListOf(_, es) => Reverse(es)
    case SelectIndex(l, i) => [i, l]
    case Call(ct, args) => if ct.WorkerCreation? && ct.workerName.Some? then [ct.workerName.value] else Reverse(args)
    case Range(from, to, _) => if to.Some? then [from, to.value] else [from]
    case _ => []
  }

  lemma OpsShrink(e: Expr)
    ensures IsStrict(e) ==> WeightAll(Ops(e)) < Weight(e)
  {
    hide ArmCost, IsStrict;
    match e.kind
    case Binary(_, l, r) => PairWeight(r, l);
    case Record(fs) => ReverseWeight(Exprs(fs));
    case ListOf(_, es) => ReverseWeight(es);
    case SelectIndex(l, i) => PairWeight(i, l);
    case Call(ct, args) => ReverseWeight(args);
    case Range(from, to, _) => if to.Some? { PairWeight(from, to.value); }
    case _ =>
  }

  function UnaryValue(op: UnaryOp, ty: InferredType, v: StackValue): Option<StackValue> {
    hide *;
    var w := WitOf(ty);
    match op
    case Not => Negated(v)
    case Unwrap => UnwrapValue(v)
    case Length => LengthOf(v)
    case GetTag => TagOf(v)
    case SelectField(f) => SelectFieldOf(f, v)
    case MakeSome => if w.Some? then MakeSomeOf(w.value, v) else None
    case MakeOk => if w.Some? then MakeOkOf(w.value, v) else None
    case MakeErr => if w.Some? then MakeErrOf(w.value, v) else None
  }

  function BinaryValue(op: BinaryOp, ty: InferredType, l: StackValue, r: StackValue): Option<StackValue> {
    hide *;
    match op
    case Compare(cmp) => CompareValues(cmp, l, r)
    case Math(m) => if WitOf(ty).Some? then MathValues(m, WitOf(ty).value, l, r) else None
    case _ => None
  }

  function ListValue(text: ValueAndType -> string, op: ListOp, ty: InferredType, vs: seq<StackValue>): Option<StackValue> {
    hide *;
    match op
    case Sequence => if WitOf(ty).Some? then MakeList(WitOf(ty).value, vs) else None
    case Tuple => if WitOf(ty).Some? then MakeTuple(WitOf(ty).value, vs) else None
    case Concat => Concatenated(text, vs)
  }

  /** The record with the given fields set, one after the other. */
  function RecordValue(record: Option<StackValue>, names: seq<string>, vs: seq<StackValue>): Option<StackValue>
    requires hide *; |names| == |vs|
    decreases |names|
  {
    if record.None? || names == [] then record
    else RecordValue(UpdateField(names[0], record.value, vs[0]), names[1..], vs[1..])
  }

  function Names(fs: seq<Field<Expr>>): (ns: seq<string>)
    ensures |ns| == |fs|
  {
    if fs == [] then [] else [fs[0].name] + Names(fs[1..])
  }

  function RangeValue(ty: InferredType, inclusive: bool, from: StackValue, to: Option<StackValue>): Option<StackValue> {
    hide *;
    if WitOf(ty).None? then None
    else if to.None? then
      RecordValue(EmptyRecord(WitOf(ty).value), ["inclusive", "from"], [MkVal(inclusive), from])
    else
      RecordValue(EmptyRecord(WitOf(ty).value), ["inclusive", "to", "from"], [MkVal(inclusive), to.value, from])
  }

  function LeafValue<H>(w: World<H>, leaf: Leaf, ty: InferredType, env: Env, h: H): Answer<H> {
    hide *;
    match leaf
    case Literal(s) => Answer(Val(StrVT(s)), h)
    case Number(n) =>
      var t := WitOf(ty);
      if t.Some? && t.value.WNum? && NumberAs(n, t.value.num).Some? then Answer(Val(NumberAs(n, t.value.num).value), h)
      else NoAnswer(h)
    case Boolean(b) => Answer(MkVal(b), h)
    case Flags(names) =>
      (match ty.inner
       case TFlags(all) => Answer(Val(VT(VFlags(seq(|all|, i requires 0 <= i < |all| => all[i] in names)), WFlags(all))), h)
       case _ => NoAnswer(h))
    case Identifier(v) => if v in env && (env[v].Val? || env[v].Unit?) then Answer(env[v], h) else NoAnswer(h)
    case Throw(_) => NoAnswer(h)
    case GenerateWorkerName(v) =>
      if v.Some? && AsInstanceVariable(v.value) in env then
        var x := env[AsInstanceVariable(v.value)];
        if x.Val? then Answer(x, h) else NoAnswer(h)
      else
        var (h', name) := w.name(h); Answer(Val(StrVT(name)), h')
    case MakeNone => Given(MakeNoneOf(WitOf(ty)), h)
  }

  /** A call of the host with evaluated arguments. */
  function CallHost<H>(w: World<H>, name: string, receiver: InstanceVariable, component: int, result: Option<WitType>,
                       args: seq<StackValue>, env: Env, h: H): Answer<H> {
    hide *;
    var vts := AllVals(args);
    if vts.None? then NoAnswer(h) else
    var callee := Resolve(w.text, receiver, env, vts.value);
    if callee.None? then NoAnswer(h) else
    var (h', answer) := w.invoke(h, 0, CallRecord(component, callee.value.0, name, callee.value.1, result));
    if answer.None? then NoAnswer(h') else Answer(if answer.value.Some? then Val(answer.value.value) else Unit, h')
  }

  function CallValue<H>(w: World<H>, ct: CallType, ty: InferredType, args: seq<StackValue>, env: Env, h: H): Answer<H> {
    hide *;
    var result := if IsUnit(ty) then None else WitOf(ty);
    match ct
    case Function(name, receiver, component) =>
      if CallReceiver(receiver).Err? || component.None? then NoAnswer(h)
      else CallHost(w, name, CallReceiver(receiver).value, component.value, result, args, env, h)
    case ResourceCreation(name, owner, component) =>
      if OwnerReceiver(owner).Err? || component.None? then NoAnswer(h)
      else CallHost(w, name, OwnerReceiver(owner).value, component.value, result, args, env, h)
    case WorkerCreation(_, _) => if |args| == 1 then Answer(args[0], h) else NoAnswer(h)
    case VariantConstructor(name) =>
      if WitOf(ty).None? then NoAnswer(h)
      else Given(MakeVariant(name, WitOf(ty).value, if |args| == 1 then Some(args[0]) else None), h)
    case EnumConstructor(name) => if WitOf(ty).None? then NoAnswer(h) else Given(MakeEnum(name, WitOf(ty).value), h)
  }

  /** The combination of operand values given in source order (for ranges: end before start). */
  function Combine<H>(w: World<H>, e: Expr, vs: seq<StackValue>, env: Env, h: H): Answer<H>
    requires hide BinaryValue, UnaryValue, LeafValue, CallValue, ListValue, WitOf, SelectItem;
             IsStrict(e) && |vs| == |Ops(e)|
  {
    match e.kind
    case Atom(leaf) => LeafValue(w, leaf, e.ty, env, h)
    case Unary(op, _) => Given(UnaryValue(op, e.ty, vs[0]), h)
    case Binary(op, _, _) => Given(BinaryValue(op, e.ty, vs[0], vs[1]), h)
    case Record(fs) => Given(if WitOf(e.ty).Some? then RecordValue(EmptyRecord(WitOf(e.ty).value), Names(fs), vs) else None, h)
    case ListOf(op, _) => Given(ListValue(w.text, op, e.ty, vs), h)
    case SelectIndex(_, _) => Given(SelectItem(vs[0], vs[1]), h)
    case Call(ct, _) => CallValue(w, ct, e.ty, vs, env, h)
    case Range(_, to, inclusive) =>
      Given(if to.None? then RangeValue(e.ty, inclusive, vs[0], None) else RangeValue(e.ty, inclusive, vs[1], Some(vs[0])), h)
  }

  // ---------- evaluation ----------

  /** Comparison of a value with `true`, as the logical operators use it. */
  function Truth(v: StackValue): Option<bool> {
    hide *;
    var c := CompareValues(EqualTo, v, MkVal(true));
    if c.Some? && c.value.Val? && c.value.vt.value.VBool? then Some(c.value.vt.value.b) else None
  }

  function Eval<H>(w: World<H>, e: Expr, env: Env, h: H): Outcome<H>
    decreases Weight(e), 0, 0
  {
    hide Combine, PlanOf, Truth, Ops, WitOf;
    if IsStrict(e) then
      OpsShrink(e);
      match EvalAll(w, Ops(e), env, h)
      case AllFault(h1) => Fault(h1)
      case AllDone(vs, env1, h1) =>
        if |vs| != |Ops(e)| then Fault(h1) else
        match Combine(w, e, Reverse(vs), env1, h1)
        case Answer(v, h2) => Done(Some(v), env1, h2)
        case NoAnswer(h2) => Fault(h2)
    else
      match e.kind
      case Binary(op, l, r) =>
        // the right side is skipped when the left side decides
        (match Eval(w, l, env, h)
         case Fault(h1) => Fault(h1)
         case Done(None, _, h1) => Fault(h1)
         case Done(Some(v), env1, h1) =>
           var t := Truth(v);
           if t.None? then Fault(h1)
           else if t.value == op.Or? then Done(Some(MkVal(op.Or?)), env1, h1)
           else
             match Eval(w, r, env1, h1)
             case Fault(h2) => Fault(h2)
             case Done(None, _, h2) => Fault(h2)
             case Done(Some(u), env2, h2) =>
               if Truth(u).None? then Fault(h2) else Done(Some(MkVal(Truth(u).value)), env2, h2))
      case Block(es) => EvalBlock(w, es, env, h)
      case Let(x, b) =>
        (match Eval(w, b, env, h)
         case Done(Some(v), env1, h1) => Done(None, env1[x := v], h1)
         case Done(None, _, h1) => Fault(h1)
         case Fault(h1) => Fault(h1))
      case Cond(c, l, r) =>
        (match Eval(w, c, env, h)
         case Done(Some(v), env1, h1) =>
           if IsBool(v, true) then Eval(w, l, env1, h1)
           else if IsBool(v, false) then Eval(w, r, env1, h1)
           else Fault(h1)
         case Done(None, _, h1) => Fault(h1)
         case Fault(h1) => Fault(h1))
      case PatternMatch(_, _) =>
        PlanShrinks(e, 0);
        if PlanOf(e, 0).Rewrite? then Eval(w, PlanOf(e, 0).to, env, h) else Fault(h)
      case SelectIndex(_, _) =>
        PlanShrinks(e, 0);
        if PlanOf(e, 0).Rewrite? then Eval(w, PlanOf(e, 0).to, env, h) else Fault(h)
      case Comprehension(x, i, b) =>
        (match Eval(w, i, env, h)
         case Done(Some(v), env1, h1) =>
           var it := Iterated(v);
           if it.None? || WitOf(e.ty).None? || !WitOf(e.ty).value.WList? then Fault(h1)
           else Collect(w, x, b, it.value.items, [], WitOf(e.ty).value.elem, env1, h1)
         case Done(None, _, h1) => Fault(h1)
         case Fault(h1) => Fault(h1))
      case Reduce(rx, x, i, s, b) =>
        (match Eval(w, i, env, h)
         case Fault(h1) => Fault(h1)
         case Done(None, _, h1) => Fault(h1)
         case Done(Some(v), env1, h1) =>
           match Eval(w, s, env1, h1)
           case Fault(h2) => Fault(h2)
           case Done(None, _, h2) => Fault(h2)
           case Done(Some(u), env2, h2) =>
             var it := Iterated(v);
             if it.None? then Fault(h2) else Fold(w, rx, x, b, it.value.items, env2[rx := u], h2))
      case _ => Done(None, env, h)
  }

  function EvalAll<H>(w: World<H>, es: seq<Expr>, env: Env, h: H): (r: Outcomes<H>)
    ensures hide *; r.AllDone? ==> |r.vs| == |es|
    decreases WeightAll(es), 1, |es|
  {
    if es == [] then AllDone([], env, h) else
    WeightLast(es);
    match EvalAll(w, es[..|es| - 1], env, h)
    case AllFault(h1) => AllFault(h1)
    case AllDone(vs, env1, h1) =>
      match Eval(w, es[|es| - 1], env1, h1)
      case Done(Some(v), env2, h2) => AllDone(vs + [v], env2, h2)
      case Done(None, _, h2) => AllFault(h2)
      case Fault(h2) => AllFault(h2)
  }

  /** The value of a block is the value of its last expression. */
  function EvalBlock<H>(w: World<H>, es: seq<Expr>, env: Env, h: H): Outcome<H>
    decreases WeightAll(es), 1, |es|
  {
    hide *;
    if es == [] then Done(None, env, h) else
    WeightLast(es);
    match EvalBlock(w, es[..|es| - 1], env, h)
    case Fault(h1) => Fault(h1)
    case Done(_, env1, h1) => Eval(w, es[|es| - 1], env1, h1)
  }

  /** One value per item; a unit value adds nothing. */
  function Collect<H>(w: World<H>, x: VariableId, b: Expr, items: seq<ValueAndType>, acc: seq<ValueAndType>, elem: WitType,
                      env: Env, h: H): Outcome<H>
    decreases Weight(b), 1, |items|
  {
    hide *;
    if items == [] then Done(Some(Val(VT(VList(ValuesOf(acc)), WList(elem)))), env, h) else
    match Eval(w, b, env[x := Val(items[0])], h)
    case Fault(h1) => Fault(h1)
    case Done(None, _, h1) => Fault(h1)
    case Done(Some(v), env1, h1) =>
      Collect(w, x, b, items[1..], if v.Val? then acc + [v.vt] else acc, elem, env1, h1)
  }

  /** The accumulator is a variable like any other. */
  function Fold<H>(w: World<H>, rx: VariableId, x: VariableId, b: Expr, items: seq<ValueAndType>, env: Env, h: H): Outcome<H>
    decreases Weight(b), 1, |items|
  {
    hide *;
    if items == [] then
      if rx in env && (env[rx].Val? || env[rx].Unit?) then Done(Some(env[rx]), env, h) else Fault(h)
    else
      match Eval(w, b, env[x := Val(items[0])], h)
      case Fault(h1) => Fault(h1)
      case Done(None, _, h1) => Fault(h1)
      case Done(Some(v), env1, h1) => Fold(w, rx, x, b, items[1..], env1[rx := v], h1)
  }

  // ---------- stack discipline ----------

  /** What the code of an expression leaves on the stack: a value or not; something below it or not; and whether the
      value is certainly not unit. */
  datatype Shape = Shape(value: bool, junk: bool, solid: bool)

  predicate IsThrow(e: Expr) { e.kind.Atom? && e.kind.leaf.Throw? }

  predicate Neat(s: Option<Shape>) { s.Some? && s.value.value && !s.value.junk }

  predicate Yields(s: Option<Shape>) { s.Some? && s.value.value }

  /** Constructors of enums and of cases without payload do not pop arguments. */
  predicate ArgsFit(ct: CallType, args: seq<Expr>, ty: InferredType) {
    hide *;
    match ct
    case EnumConstructor(_) => args == []
    case VariantConstructor(name) =>
      WitOf(ty).Some? ==> |args| == if CasePayload(WitOf(ty).value, name).Some? then 1 else 0
    case WorkerCreation(workerName, _) => workerName.Some? || |args| == 1
    case _ => true
  }

  predicate SolidResult(e: Expr) {
    match e.kind
    case Atom(leaf) => !leaf.Identifier?
    case Call(ct, _) => ct.VariantConstructor? || ct.EnumConstructor?
    case _ => true
  }

  /** The static check. Operands that are evaluated on top of other operands must leave nothing but their value. */
  function Discipline(e: Expr): Option<Shape>
    decreases Weight(e), 0, 0
  {
    hide PlanOf, ArgsFit, ArmsCost;
    if IsStrict(e) then
      OpsShrink(e);
      var junk := OperandDiscipline(Ops(e));
      if junk.None? || (e.kind.Call? && !ArgsFit(e.kind.callType, e.kind.args, e.ty)) then None
      else Some(Shape(true, junk.value, SolidResult(e)))
    else
      match e.kind
      case Binary(_, l, r) => if Neat(Discipline(l)) && Neat(Discipline(r)) then Some(Shape(true, false, true)) else None
      case Block(es) => BlockDiscipline(es)
      case Let(_, b) =>
        var s := Discipline(b);
        if Yields(s) then Some(Shape(false, s.value.junk, false)) else None
      case Cond(c, l, r) =>
        var sc, sl, sr := Discipline(c), Discipline(l), Discipline(r);
        if !Yields(sc) || sl.None? || sr.None? then None
        else if sl.value.value == sr.value.value then
          Some(Shape(sl.value.value, sc.value.junk || sl.value.junk || sr.value.junk, sl.value.solid && sr.value.solid))
        else if IsThrow(r) then Some(Shape(false, sc.value.junk || sl.value.junk, false))
        else None
      case PatternMatch(_, _) =>
        PlanShrinks(e, 0);
        if PlanOf(e, 0).Rewrite? then Discipline(PlanOf(e, 0).to) else None
      case SelectIndex(_, _) =>
        PlanShrinks(e, 0);
        if PlanOf(e, 0).Rewrite? then Discipline(PlanOf(e, 0).to) else None
      case Comprehension(_, i, b) =>
        var si, sb := Discipline(i), Discipline(b);
        if Yields(si) && Yields(sb) && (!sb.value.junk || sb.value.solid) then Some(Shape(true, true, true)) else None
      case Reduce(_, _, i, s, b) =>
        if Yields(Discipline(i)) && Neat(Discipline(s)) && Neat(Discipline(b)) then Some(Shape(true, true, false)) else None
      case _ => Some(Shape(false, false, false))
  }

  /** Only the operand that is evaluated first may leave something below its value. */
  function OperandDiscipline(es: seq<Expr>): Option<bool>
    decreases WeightAll(es), 1, |es|
  {
    hide Discipline, OperandDiscipline, Weight;
    if es == [] then Some(false) else
    WeightLast(es);
    var s := Discipline(es[|es| - 1]);
    var front := OperandDiscipline(es[..|es| - 1]);
    if front.None? || !Yields(s) then None
    else if |es| == 1 then Some(s.value.junk)
    else if s.value.junk then None
    else front
  }

  /** Values before the last expression stay on the stack. */
  function BlockDiscipline(es: seq<Expr>): Option<Shape>
    decreases WeightAll(es), 1, |es|
  {
    hide *;
    if es == [] then Some(Shape(false, false, false)) else
    WeightLast(es);
    var s := Discipline(es[|es| - 1]);
    var front := BlockDiscipline(es[..|es| - 1]);
    if front.None? || s.None? then None
    else Some(Shape(s.value.value, front.value.value || front.value.junk || s.value.junk, s.value.solid))
  }
}
