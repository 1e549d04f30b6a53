/** Code generation: a recursive generator, the worklist that computes the same code backwards, and the labels of the code. */
module ByteCode {
  import opened Syntax
  import Desugar

  datatype GenError =
    | CastError
    | AnalysedTypeConversionError
    | PatternMatchDesugarError
    | RangeSelectionDesugarError
    | UnexpectedTypeError
    | UnresolvedWasmComponent
    | UnresolvedWorkerName
    | UnresolvedResourceVariable
    // where the code panics: inference gives every call an instance
    | MissingInstance

  // ---------- weights: what a pending expression may still expand to ----------

  function Weight(e: Expr): (w: nat)
    ensures hide *; w > 0
    decreases e
  {
    match e.kind
    case Atom(_) => 1
    case Unary(_, a) => 2 + Weight(a)
    case Binary(op, l, r) => (if op.And? || op.Or? then 11 else 1) + Weight(l) + Weight(r)
    case Record(fs) => 1 + WeightFields(fs)
    case ListOf(_, es) => 1 + WeightAll(es)
    case Block(es) => 1 + WeightAll(es)
    case Let(_, b) => 1 + Weight(b)
    case Cond(c, l, r) => 5 + Weight(c) + Weight(l) + Weight(r)
    case PatternMatch(p, arms) => 2 + ArmsCost(arms, Weight(p))
    case SelectIndex(l, i) =>
      // selecting a range copies the list
      if i.kind.Range? then 2 * Weight(l) + Weight(i) + 40 else 1 + Weight(l) + Weight(i)
    case Call(ct, args) =>
      1 + WeightAll(args) + (if ct.WorkerCreation? && ct.workerName.Some? then Weight(ct.workerName.value) else 0)
    case Comprehension(_, i, b) => 12 + Weight(i) + Weight(b)
    case Reduce(_, _, i, s, b) => 12 + Weight(i) + Weight(s) + Weight(b)
    case Range(f, t, _) => 2 + Weight(f) + (if t.Some? then Weight(t.value) else 0)
    case InvokeMethodLazy(_, _, _) => 1
  }

  function WeightAll(es: seq<Expr>): nat
    decreases es
  {
    hide *;
    if es == [] then 0 else Weight(es[0]) + WeightAll(es[1..])
  }

  function WeightFields(fs: seq<Field<Expr>>): nat
    decreases fs
  {
    hide *;
    if fs == [] then 0 else Weight(fs[0].of) + WeightFields(fs[1..])
  }

  function ArmsCost(arms: seq<MatchArm>, n: nat): nat
    decreases arms
  {
    hide *;
    if arms == [] then 0 else ArmCost(arms[0], n) + ArmsCost(arms[1..], n)
  }

  function ArmCost(arm: MatchArm, n: nat): nat
    decreases arm
  {
    hide *;
    PatCost(arm.pattern, n) + Weight(arm.resolution) + 5
  }

  /** What testing and binding one pattern costs when the value it is matched against has weight n. */
  function PatCost(p: ArmPattern, n: nat): nat
    decreases p
  {
    hide *;
    match p
    case WildCard => 1
    case As(_, q) => n + 3 + PatCost(q, n)
    case Constructor(_, ps) => n + 30 + PatsCost(ps, n + 2)
    case TupleConstructor(ps) => n + 30 + PatsCost(ps, n + 2)
    case ListConstructor(ps) => n + 30 + PatsCost(ps, n + 2)
    case RecordConstructor(fps) => n + 30 + FieldPatsCost(fps, n + 2)
    case LiteralPattern(l) => n + 16 + Weight(l)
  }

  function PatsCost(ps: seq<ArmPattern>, n: nat): nat
    decreases ps
  {
    hide *;
    if ps == [] then 0 else PatCost(ps[0], n) + 12 + PatsCost(ps[1..], n)
  }

  function FieldPatsCost(fps: seq<Field<ArmPattern>>, n: nat): nat
    decreases fps
  {
    hide *;
    if fps == [] then 0 else PatCost(fps[0].of, n) + 12 + FieldPatsCost(fps[1..], n)
  }

  lemma WeightAppend(a: seq<Expr>, b: seq<Expr>)
    ensures WeightAll(a + b) == WeightAll(a) + WeightAll(b)
  {
    hide Weight;
    if a == [] {
      assert a + b == b;
    } else {
      assert (a + b)[1..] == a[1..] + b;
    }
  }

  lemma WeightLast(es: seq<Expr>)
    requires hide *; es != []
    ensures WeightAll(es) == WeightAll(es[..|es| - 1]) + Weight(es[|es| - 1])
  {
    hide Weight;
    WeightAppend(es[..|es| - 1], [es[|es| - 1]]);
    assert es == es[..|es| - 1] + [es[|es| - 1]];
  }

  // ---------- weights of desugared expressions ----------

  lemma {:induction false} SmallWeights(e: Expr, s: string)
    ensures Weight(MkEq(e, MkBool(true))) == Weight(e) + 2
    ensures Weight(MkUnwrap(e)) == Weight(MkTag(e)) == Weight(e) + 2
    ensures Weight(Desugar.TagTest(e, s)) == Weight(e) + 4
  {
  }

  function TagWeight(tag: Option<Expr>): nat { hide *; if tag.Some? then Weight(tag.value) else 0 }

  function BranchWeight(b: Desugar.Branch): nat { hide *; Weight(b.condition) + Weight(b.body) }

  /** The condition and the body of an arm weigh no more than the pattern was charged for. */
  lemma {:induction false} ConditionsWeight(p: ArmPattern, res: Expr, pred: Expr, tag: Option<Expr>, ty: InferredType)
    ensures hide *; var b := Desugar.Conditions(p, res, pred, tag, ty);
            b.Some? ==> BranchWeight(b.value) <= PatCost(p, Weight(pred)) + TagWeight(tag) + Weight(res)
    decreases p
  {
    hide Desugar.FieldBranches, WeightAll;
    match p
    case WildCard =>
    case LiteralPattern(lit) =>
      if lit.kind.Atom? && lit.kind.leaf.Identifier? {
        PairWeight(Expr(Let(lit.kind.leaf.variable, pred), lit.ty, NO_NOTE), res);
      }
      if lit.kind.Call? && lit.kind.callType.EnumConstructor? {
        SmallWeights(pred, lit.kind.callType.enum_);
      }
    case Constructor(name, ps) => ConstructorWeight(name, ps, res, pred, tag, ty);
    case TupleConstructor(ps) => ConstructorWeight("tuple", ps, res, pred, tag, ty);
    case ListConstructor(ps) => ConstructorWeight("list", ps, res, pred, tag, ty);
    case RecordConstructor(fps) =>
      if ty.inner.TRecord? {
        FieldBranchesWeight(fps, pred, ty.inner.fields);
        CombinedWeight(Desugar.FieldBranches(fps, pred, ty.inner.fields), res, tag);
      }
    case As(name, inner) =>
      var binding := Expr(Let(Global(name), pred), pred.ty, NO_NOTE);
      PairWeight(binding, res);
      ConditionsWeight(inner, MkBlock([binding, res]), pred, tag, ty);
  }

  lemma {:induction false} ConstructorWeight(name: string, ps: seq<ArmPattern>, res: Expr, pred: Expr, tag: Option<Expr>,
                                             ty: InferredType)
    ensures hide *; var b := Desugar.ConstructorBranch(name, ps, res, pred, tag, ty);
            b.Some? ==> BranchWeight(b.value)
                        <= Weight(pred) + 30 + PatsCost(ps, Weight(pred) + 2) + TagWeight(tag) + Weight(res)
    decreases ps, 1
  {
    hide Desugar.Conditions, ArmsCost, Desugar.Combined;
    var tested := Desugar.Under(tag, Desugar.TagTest(pred, name));
    SmallWeights(pred, name);
    assert Weight(tested) <= Weight(pred) + TagWeight(tag) + 15;
    match ty.inner
    case TVariant(cases) =>
      var found := Desugar.FindCase(cases, name);
      if ps != [] && found.Some? && found.value.Some? {
        ConditionsWeight(ps[0], res, MkUnwrap(pred), Some(tested), found.value.value);
      }
    case TOption(inner) =>
      if ps != [] {
        ConditionsWeight(ps[0], res, MkUnwrap(pred), Some(tested), inner);
      }
    case TResult(ok, error) =>
      if ps != [] {
        var inner := if name == "ok" then ok else error;
        ConditionsWeight(ps[0], res, MkUnwrap(pred), Some(tested), if inner.Some? then inner.value else UNKNOWN);
      }
    case TTuple(types) =>
      ItemBranchesWeight(ps, pred, types, 0);
      CombinedWeight(Desugar.ItemBranches(ps, pred, types, 0), res, tag);
    case TList(elem) =>
      var types := seq(|ps|, _ => elem);
      ItemBranchesWeight(ps, pred, types, 0);
      CombinedWeight(Desugar.ItemBranches(ps, pred, types, 0), res, tag);
    case _ =>
  }

  function BranchesWeight(bs: seq<Desugar.Branch>): nat {
    hide *;
    if bs == [] then 0 else BranchWeight(bs[0]) + 11 + BranchesWeight(bs[1..])
  }

  lemma {:induction false} ItemBranchesWeight(ps: seq<ArmPattern>, pred: Expr, types: seq<InferredType>, i: nat)
    ensures hide *; BranchesWeight(Desugar.ItemBranches(ps, pred, types, i)) <= PatsCost(ps, Weight(pred) + 2)
    decreases ps, 0
  {
    hide Desugar.Conditions, BranchWeight, PatCost, WeightFields;
    if ps != [] {
      var ty := if i < |types| then types[i] else UNKNOWN;
      ConditionsWeight(ps[0], MkLit(""), Desugar.ItemAt(pred, i), None, ty);
      ItemBranchesWeight(ps[1..], pred, types, i + 1);
      var branch := Desugar.Conditions(ps[0], MkLit(""), Desugar.ItemAt(pred, i), None, ty);
      var rest := Desugar.ItemBranches(ps[1..], pred, types, i + 1);
      if branch.Some? {
        assert ([branch.value] + rest)[1..] == rest;
      }
    }
  }

  lemma {:induction false} FieldBranchesWeight(fps: seq<Field<ArmPattern>>, pred: Expr, fields: seq<Field<InferredType>>)
    ensures hide *; BranchesWeight(Desugar.FieldBranches(fps, pred, fields)) <= FieldPatsCost(fps, Weight(pred) + 2)
    decreases fps, 0
  {
    hide Desugar.Conditions, ArmsCost, PatCost, BranchWeight;
    if fps != [] {
      var ty := Desugar.FindField(fields, fps[0].name);
      var at := Desugar.FieldAt(pred, fps[0].name);
      ConditionsWeight(fps[0].of, MkLit(""), at, None, ty);
      FieldBranchesWeight(fps[1..], pred, fields);
      var branch := Desugar.Conditions(fps[0].of, MkLit(""), at, None, ty);
      var rest := Desugar.FieldBranches(fps[1..], pred, fields);
      if branch.Some? {
        assert ([branch.value] + rest)[1..] == rest;
      }
    }
  }

  lemma AndAllWeight(first: Expr, bs: seq<Desugar.Branch>)
    ensures Weight(Desugar.AndAll(first, bs)) + WeightAll(Desugar.Bodies(bs)) == Weight(first) + BranchesWeight(bs)
    decreases bs
  {
    if bs != [] {
      AndAllWeight(MkAnd(first, bs[0].condition), bs[1..]);
      assert Desugar.Bodies(bs)[1..] == Desugar.Bodies(bs[1..]);
    }
  }

  lemma CombinedWeight(bs: seq<Desugar.Branch>, res: Expr, tag: Option<Expr>)
    ensures hide *; var b := Desugar.Combined(bs, res, tag);
            b.Some? ==> BranchWeight(b.value) <= BranchesWeight(bs) + TagWeight(tag) + Weight(res) + 13
  {
    hide BranchesWeight, ArmsCost, Desugar.Bodies;
    AndAllWeight(MkBool(true), bs);
    WeightAppend(Desugar.Bodies(bs), [res]);
  }

  lemma ArmBranchesWeight(pred: Expr, arms: seq<MatchArm>)
    ensures Weight(Desugar.Nest(Desugar.ArmBranches(pred, arms))) <= 1 + ArmsCost(arms, Weight(pred))
    decreases arms
  {
    hide Desugar.Conditions, PatCost;
    if arms != [] {
      ConditionsWeight(arms[0].pattern, arms[0].resolution, pred, None, pred.ty);
      ArmBranchesWeight(pred, arms[1..]);
      var branch := Desugar.Conditions(arms[0].pattern, arms[0].resolution, pred, None, pred.ty);
      var rest := Desugar.ArmBranches(pred, arms[1..]);
      if branch.Some? {
        assert ([branch.value] + rest)[1..] == rest;
      }
    }
  }

  /** Although the value matched on is copied into every condition and every binding, the desugared match weighs
      less than the match. */
  lemma {:induction false} MatchShrinks(pred: Expr, arms: seq<MatchArm>, ty: InferredType, note: Note)
    ensures hide *; var m := Desugar.Match(pred, arms);
            m.Some? ==> Weight(m.value) < Weight(Expr(PatternMatch(pred, arms), ty, note))
  {
    hide Desugar.ArmBranches, ArmsCost;
    ArmBranchesWeight(pred, arms);
  }

  lemma UpToWeight(list: Expr, from: Expr)
    ensures hide *; var es := Desugar.UpToEnd(list, from);
            Weight(es[0]) == 3 + Weight(list) && Weight(es[1]) == 4 && Weight(es[2]) == 17 + Weight(from) + Weight(list)
  {
    hide ArmsCost;
    var es := Desugar.UpToEnd(list, from);
    assert Weight(es[1].kind.bound) == 3;
    assert Weight(Desugar.ItemOf(list)) == 2 + Weight(list);
    assert Weight(es[2].kind.iterable) == 3 + Weight(from);
  }

  /** The same for the selection of a range, which copies the list. */
  lemma {:induction false} RangeSelectionShrinks(list: Expr, range: Expr, ty: InferredType, note: Note)
    ensures hide *; var s := Desugar.RangeSelection(list, range);
            s.Some? ==> Weight(s.value) < Weight(Expr(SelectIndex(list, range), ty, note))
  {
    hide Desugar.UpToEnd;
    var s := Desugar.RangeSelection(list, range);
    assert Weight(Desugar.ItemOf(list)) == 2 + Weight(list);
    if s.Some? && range.kind.to.None? {
      var es := s.value.kind.exprs;
      WeightAppend([es[0]], [es[1], es[2]]);
      WeightAppend([es[1]], [es[2]]);
      assert es == [es[0]] + [es[1], es[2]] && [es[1], es[2]] == [es[1]] + [es[2]];
      UpToWeight(list, range.kind.from);
    }
  }

  // ---------- what one expression turns into ----------

  /** An expression whose code is followed by straight instructions. */
  datatype Chunk = Chunk(e: Expr, tail: seq<IR>)

  /** Chunks in the order of their code, then instructions, using up some labels; or another expression; or an error. */
  datatype Plan = Parts(chunks: seq<Chunk>, tail: seq<IR>, labels: nat) | Rewrite(to: Expr) | Bad(err: GenError)

  function ChunkWeight(c: Chunk): nat { hide *; Weight(c.e) + |c.tail| }

  function ChunksWeight(cs: seq<Chunk>): nat {
    hide *;
    if cs == [] then 0 else ChunksWeight(cs[..|cs| - 1]) + ChunkWeight(cs[|cs| - 1])
  }

  /** Operands without instructions of their own. */
  function Plainly(es: seq<Expr>): (cs: seq<Chunk>)
    ensures |cs| == |es|
    ensures forall i :: 0 <= i < |es| ==> cs[i] == Chunk(es[i], [])
  {
    seq(|es|, i requires 0 <= i < |es| => Chunk(es[i], []))
  }

  lemma PlainlyWeight(es: seq<Expr>)
    ensures ChunksWeight(Plainly(es)) == WeightAll(es)
  {
    if es != [] {
      WeightLast(es);
      assert Plainly(es)[..|es| - 1] == Plainly(es[..|es| - 1]);
      PlainlyWeight(es[..|es| - 1]);
    }
  }

  lemma {:induction false} SmallChunks(a: Chunk, b: Chunk, c: Chunk)
    ensures ChunksWeight([a]) == ChunkWeight(a)
    ensures ChunksWeight([a, b]) == ChunkWeight(a) + ChunkWeight(b)
    ensures ChunksWeight([a, b, c]) == ChunkWeight(a) + ChunkWeight(b) + ChunkWeight(c)
  {
    hide Weight;
    assert [a, b, c][..2] == [a, b] && [a, b][..1] == [a] && [a][..0] == [];
  }

  function Reverse<T>(s: seq<T>): (r: seq<T>)
    ensures |r| == |s|
    ensures forall i :: 0 <= i < |s| ==> r[i] == s[|s| - 1 - i]
  {
    if s == [] then [] else Reverse(s[1..]) + [s[0]]
  }

  lemma ReverseWeight(es: seq<Expr>)
    ensures WeightAll(Reverse(es)) == WeightAll(es)
  {
    hide Weight;
    if es != [] {
      WeightAppend(Reverse(es[1..]), [es[0]]);
    }
  }

  function Exprs(fs: seq<Field<Expr>>): (es: seq<Expr>)
    ensures hide *; |es| == |fs|
    ensures forall i :: 0 <= i < |fs| ==> es[i] == fs[i].of
    ensures WeightAll(es) == WeightFields(fs)
  {
    if fs == [] then [] else [fs[0].of] + Exprs(fs[1..])
  }

  function Updates(fs: seq<Field<Expr>>): seq<IR> {
    hide *;
    if fs == [] then [] else [UpdateRecord(fs[0].name)] + Updates(fs[1..])
  }

  function Operands(es: seq<Expr>, tail: seq<IR>): Plan { Parts(Plainly(es), tail, 0) }

  /** Operands followed by one instruction that carries the WIT type of the expression. */
  function Typed(ty: InferredType, ops: seq<Expr>, ir: WitType -> IR): Plan {
    hide *;
    var w := WitOf(ty);
    if w.None? then Bad(AnalysedTypeConversionError) else Operands(ops, [ir(w.value)])
  }

  function LeafPlan(leaf: Leaf, ty: InferredType): (p: Plan)
    ensures hide *; p.Parts? ==> p.chunks == [] && p.labels == 0
    ensures !p.Rewrite?
  {
    match leaf
    case Literal(s) => Operands([], [PushLit(StrVT(s))])
    case Number(n) =>
      var w := WitOf(ty);
      if w.None? then Bad(AnalysedTypeConversionError)
      else if !w.value.WNum? || NumberAs(n, w.value.num).None? then Bad(CastError)
      else Operands([], [PushLit(NumberAs(n, w.value.num).value)])
    case Boolean(b) => Operands([], [PushLit(BoolVT(b))])
    case Flags(names) =>
      (match ty.inner
       case TFlags(all) => Operands([], [PushFlag(VT(VFlags(seq(|all|, i requires 0 <= i < |all| => all[i] in names)), WFlags(all)))])
       case _ => Bad(UnexpectedTypeError))
    case Identifier(v) => Operands([], [LoadVar(v)])
    case Throw(s) => Operands([], [ThrowIR(s)])
    case GenerateWorkerName(v) => Operands([], [GenerateName(v)])
    case MakeNone => Operands([], [PushNone(WitOf(ty))])
  }

  function UnaryPlan(op: UnaryOp, a: Expr, ty: InferredType): (p: Plan)
    ensures hide *; p.Parts? ==> p.labels == 0 && (p.chunks == [Chunk(a, [])] || p.chunks == [Chunk(a, [GetTagIR])])
    ensures !p.Rewrite?
  {
    match op
    case Not => Operands([a], [Negate])
    case Unwrap => Operands([a], [Deconstruct])
    case Length => Operands([a], [LengthIR])
    case GetTag => Parts([Chunk(a, [GetTagIR])], [], 0)
    case SelectField(f) => Operands([a], [SelectFieldIR(f)])
    case MakeSome => Typed(ty, [a], w => PushSome(w))
    case MakeOk => Typed(ty, [a], w => PushOkResult(w))
    case MakeErr => Typed(ty, [a], w => PushErrResult(w))
  }

  /** The right operand is evaluated first, so that the left one ends on top. */
  function BinaryPlan(op: BinaryOp, l: Expr, r: Expr, ty: InferredType): (p: Plan)
    ensures hide *; p.Parts? ==> p.chunks == Plainly([r, l]) && p.labels == 0
    ensures p.Rewrite? ==> (op.And? && p.to == AndAsCond(l, r)) || (op.Or? && p.to == OrAsCond(l, r))
  {
    match op
    case Compare(cmp) => Operands([r, l], [CompareIR(cmp)])
    case Math(m) => Typed(ty, [r, l], w => MathIR(m, w))
    case And => Rewrite(AndAsCond(l, r))
    case Or => Rewrite(OrAsCond(l, r))
  }

  /** A comparison with `true` decides; the right side is only reached when the left one has not decided. */
  function AndAsCond(l: Expr, r: Expr): Expr {
    Mk(Cond(MkEq(l, MkBool(true)), MkEq(r, MkBool(true)), MkBool(false)))
  }

  function OrAsCond(l: Expr, r: Expr): Expr {
    Mk(Cond(MkEq(l, MkBool(true)), MkBool(true), MkEq(r, MkBool(true))))
  }

  lemma PairWeight(a: Expr, b: Expr)
    ensures WeightAll([a, b]) == Weight(a) + Weight(b)
  {
    hide Weight;
    WeightAppend([a], [b]);
    assert [a, b] == [a] + [b];
  }

  lemma AsCondWeight(l: Expr, r: Expr)
    ensures Weight(AndAsCond(l, r)) == Weight(OrAsCond(l, r)) == Weight(l) + Weight(r) + 10
  {
    hide ArmsCost, WeightAll, WeightFields;
    SmallWeights(l, "");
    SmallWeights(r, "");
  }

  function RecordPlan(fs: seq<Field<Expr>>, ty: InferredType): (p: Plan)
    ensures hide *; p.Parts? ==> p.chunks == Plainly(Reverse(Exprs(fs))) && p.labels == 0
    ensures !p.Rewrite?
  {
    var w := WitOf(ty);
    if w.None? then Bad(AnalysedTypeConversionError)
    else Operands(Reverse(Exprs(fs)), [CreateAndPushRecord(w.value)] + Updates(fs))
  }

  function ListPlan(op: ListOp, es: seq<Expr>, ty: InferredType): (p: Plan)
    ensures hide *; p.Parts? ==> p.chunks == Plainly(Reverse(es)) && p.labels == 0
    ensures !p.Rewrite?
  {
    match op
    case Sequence => Typed(ty, Reverse(es), w => PushList(w, |es|))
    case Tuple => Typed(ty, Reverse(es), w => PushTuple(w, |es|))
    case Concat => Operands(Reverse(es), [ConcatIR(|es|)])
  }

  /** The receiver of a plain call; a resource without a variable is a static call. */
  function CallReceiver(r: Receiver): Result<InstanceVariable, GenError> {
    match r
    case WorkerReceiver(v, _) => if v.None? then Err(UnresolvedWorkerName) else Ok(WitWorker(v.value))
    case NoInstance => Err(MissingInstance)
    case ResourceReceiver(v, _, _) => Ok(WitResource(if v.None? then Global(STATIC_WIT_RESOURCE) else v.value))
  }

  function OwnerReceiver(r: Receiver): Result<InstanceVariable, GenError> {
    match r
    case WorkerReceiver(v, _) => if v.None? then Err(UnresolvedWorkerName) else Ok(WitWorker(v.value))
    case NoInstance => Err(MissingInstance)
    case ResourceReceiver(v, _, _) => if v.None? then Err(UnresolvedResourceVariable) else Ok(WitResource(v.value))
  }

  function Invocation(name: string, receiver: Result<InstanceVariable, GenError>, component: Option<int>,
                      args: seq<Expr>, result: Option<WitType>): Plan {
    hide *;
    if receiver.Err? then Bad(receiver.error)
    else if component.None? then Bad(UnresolvedWasmComponent)
    else Operands(Reverse(args), [CreateFunctionName(name), InvokeFunction(component.value, receiver.value, |args|, result)])
  }

  function CallPlan(ct: CallType, args: seq<Expr>, ty: InferredType): (p: Plan)
    ensures hide *;
            p.Parts? ==> p.chunks == Plainly(if ct.WorkerCreation? && ct.workerName.Some? then [ct.workerName.value] else Reverse(args))
    ensures p.Parts? ==> p.labels == 0
    ensures !p.Rewrite?
  {
    var badType := !IsUnit(ty) && WitOf(ty).None?;
    var result := if IsUnit(ty) then None else WitOf(ty);
    match ct
    case Function(name, receiver, component) =>
      if badType then Bad(AnalysedTypeConversionError)
      else Invocation(name, CallReceiver(receiver), component, args, result)
    case ResourceCreation(name, owner, component) =>
      var plan := Invocation(name, OwnerReceiver(owner), component, args, result);
      if plan.Parts? && badType then Bad(AnalysedTypeConversionError) else plan
    case WorkerCreation(workerName, _) => Operands(if workerName.Some? then [workerName.value] else Reverse(args), [])
    case VariantConstructor(name) => Typed(ty, Reverse(args), w => PushVariant(name, w))
    case EnumConstructor(name) => Typed(ty, Reverse(args), w => PushEnum(name, w))
  }

  /** A range is a record; unlike operands elsewhere its ends are evaluated from left to right. */
  function RangePlan(from: Expr, to: Option<Expr>, inclusive: bool, ty: InferredType): (p: Plan)
    ensures hide *;
            p.Parts? ==> p.chunks == if to.Some? then [Chunk(from, []), Chunk(to.value, [PushLit(BoolVT(inclusive))])]
                                     else [Chunk(from, [PushLit(BoolVT(inclusive))])]
    ensures p.Parts? ==> p.labels == 0
    ensures !p.Rewrite?
  {
    var flag := [PushLit(BoolVT(inclusive))];
    var w := WitOf(ty);
    if !ty.inner.TRange? then Bad(UnexpectedTypeError)
    else if w.None? then Bad(AnalysedTypeConversionError)
    else if to.None? then
      Parts([Chunk(from, flag)], [CreateAndPushRecord(w.value), UpdateRecord("inclusive"), UpdateRecord("from")], 0)
    else
      Parts([Chunk(from, []), Chunk(to.value, flag)],
            [CreateAndPushRecord(w.value), UpdateRecord("inclusive"), UpdateRecord("to"), UpdateRecord("from")], 0)
  }

  function MatchPlan(e: Expr): (p: Plan)
    requires hide *; e.kind.PatternMatch?
    ensures !p.Parts?
    ensures p.Rewrite? ==> Weight(p.to) < Weight(e)
  {
    var PatternMatch(pred, arms) := e.kind;
    MatchShrinks(pred, arms, e.ty, e.note);
    var m := Desugar.Match(pred, arms);
    if m.None? then Bad(PatternMatchDesugarError) else Rewrite(m.value)
  }

  function SelectPlan(e: Expr): (p: Plan)
    requires hide Desugar.UpToEnd, Weight, Desugar.RangeSelection, Plainly; e.kind.SelectIndex?
    ensures p.Parts? ==> p.chunks == Plainly([e.kind.index, e.kind.list]) && p.labels == 0
    ensures p.Rewrite? ==> Weight(p.to) < Weight(e)
  {
    var SelectIndex(l, i) := e.kind;
    RangeSelectionShrinks(l, i, e.ty, e.note);
    if i.ty.inner.TRange? then
      var s := Desugar.RangeSelection(l, i);
      if s.None? then Bad(RangeSelectionDesugarError) else Rewrite(s.value)
    else Operands([i, l], [SelectIndexV1])
  }

  function CondChunks(c: Expr, l: Expr, r: Expr, n: nat): seq<Chunk> {
    [Chunk(c, [JumpIfFalse(n + 1)]), Chunk(l, [Jump(n + 2), Label(n + 1)]), Chunk(r, [Label(n + 2)])]
  }

  function LoopHead(n: nat, v: VariableId): seq<IR> {
    [Label(n + 1), IsEmpty, JumpIfFalse(n + 2), AdvanceIterator, AssignVar(v)]
  }

  function ComprehensionChunks(v: VariableId, i: Expr, b: Expr, w: WitType, n: nat): seq<Chunk> {
    hide *;
    [Chunk(i, [ToIterator, CreateSink(w)] + LoopHead(n, v)),
     Chunk(b, [PushToSink, Jump(n + 1), Label(n + 2), SinkToList])]
  }

  function ReduceChunks(rv: VariableId, v: VariableId, i: Expr, s: Expr, b: Expr, n: nat): seq<Chunk> {
    hide *;
    [Chunk(i, []),
     Chunk(s, [AssignVar(rv), ToIterator] + LoopHead(n, v)),
     Chunk(b, [AssignVar(rv), Jump(n + 1), Label(n + 2), LoadVar(rv)])]
  }

  function PlanOf(e: Expr, n: nat): Plan {
    hide *;
    match e.kind
    case Atom(leaf) => LeafPlan(leaf, e.ty)
    case Unary(op, a) => UnaryPlan(op, a, e.ty)
    case Binary(op, l, r) => BinaryPlan(op, l, r, e.ty)
    case Record(fs) => RecordPlan(fs, e.ty)
    case ListOf(op, es) => ListPlan(op, es, e.ty)
    case Block(es) => Operands(es, [])
    case Let(v, b) => Operands([b], [AssignVar(v)])
    case Cond(c, l, r) => Parts(CondChunks(c, l, r, n), [], 2)
    case PatternMatch(_, _) => MatchPlan(e)
    case SelectIndex(_, _) => SelectPlan(e)
    case Call(ct, args) => CallPlan(ct, args, e.ty)
    case Comprehension(v, i, b) =>
      var w := WitOf(e.ty);
      if w.None? then Bad(AnalysedTypeConversionError) else Parts(ComprehensionChunks(v, i, b, w.value, n), [], 2)
    case Reduce(rv, v, i, s, b) => Parts(ReduceChunks(rv, v, i, s, b, n), [], 2)
    case Range(from, to, inclusive) => RangePlan(from, to, inclusive, e.ty)
    case InvokeMethodLazy(_, _, _) => Operands([], [])
  }

  lemma SequenceShrinks(e: Expr, n: nat)
    requires hide *; e.kind.Record? || e.kind.ListOf? || e.kind.Block? || e.kind.Let? || e.kind.SelectIndex?
    ensures PlanOf(e, n).Parts? ==> ChunksWeight(PlanOf(e, n).chunks) < Weight(e)
  {
    hide ChunksWeight, LeafPlan, UnaryPlan, BinaryPlan, CallPlan, RangePlan, MatchPlan, SelectPlan, Reverse;
    match e.kind
    case Record(fs) => ReverseWeight(Exprs(fs)); PlainlyWeight(Reverse(Exprs(fs)));
    case ListOf(op, es) => ReverseWeight(es); PlainlyWeight(Reverse(es));
    case Block(es) => PlainlyWeight(es);
    case Let(v, b) => PlainlyWeight([b]);
    case SelectIndex(l, i) => PairWeight(i, l); PlainlyWeight([i, l]);
  }

  /** What an expression is replaced by weighs less than the expression. */
  lemma PlanShrinks(e: Expr, n: nat)
    ensures hide *; PlanOf(e, n).Parts? ==> ChunksWeight(PlanOf(e, n).chunks) < Weight(e)
    ensures PlanOf(e, n).Rewrite? ==> Weight(PlanOf(e, n).to) < Weight(e)
  {
    hide Weight, UnaryPlan, BinaryPlan, CallPlan, RangePlan, MatchPlan, SelectPlan, RecordPlan, ListPlan, Reverse;
    match e.kind
    case Atom(_) =>
    case Unary(_, _) => OperatorShrinks(e, n);
    case Binary(_, _, _) => OperatorShrinks(e, n);
    case Call(_, _) => CallShrinks(e, n);
    case Range(_, _, _) => RangeShrinks(e, n);
    case Cond(_, _, _) => LoopShrinks(e, n);
    case Comprehension(_, _, _) => LoopShrinks(e, n);
    case Reduce(_, _, _, _, _) => LoopShrinks(e, n);
    case PatternMatch(_, _) =>
    case InvokeMethodLazy(_, _, _) =>
    case _ => SequenceShrinks(e, n);
  }

  lemma OperatorShrinks(e: Expr, n: nat)
    requires hide *; e.kind.Unary? || e.kind.Binary?
    ensures PlanOf(e, n).Parts? ==> ChunksWeight(PlanOf(e, n).chunks) < Weight(e)
    ensures PlanOf(e, n).Rewrite? ==> Weight(PlanOf(e, n).to) < Weight(e)
  {
    hide ArmsCost, CallPlan, LeafPlan, ListPlan, MatchPlan, RangePlan, RecordPlan, SelectPlan, WeightFields, WitOf;
    match e.kind
    case Unary(op, a) =>
      SmallChunks(Chunk(a, []), Chunk(a, []), Chunk(a, []));
      SmallChunks(Chunk(a, [GetTagIR]), Chunk(a, []), Chunk(a, []));
    case Binary(op, l, r) => PairWeight(r, l); PlainlyWeight([r, l]); AsCondWeight(l, r);
  }

  lemma CallShrinks(e: Expr, n: nat)
    requires hide *; e.kind.Call?
    ensures PlanOf(e, n).Parts? ==> ChunksWeight(PlanOf(e, n).chunks) < Weight(e)
    ensures !PlanOf(e, n).Rewrite?
  {
    hide Desugar.Match, Typed, LeafPlan, CallPlan, SelectPlan, WitOf;
    var Call(ct, args) := e.kind;
    ReverseWeight(args);
    PlainlyWeight(Reverse(args));
    if ct.WorkerCreation? && ct.workerName.Some? {
      PlainlyWeight([ct.workerName.value]);
    }
  }

  lemma RangeShrinks(e: Expr, n: nat)
    requires hide *; e.kind.Range?
    ensures PlanOf(e, n).Parts? ==> ChunksWeight(PlanOf(e, n).chunks) < Weight(e)
  {
    hide ArmsCost, BinaryPlan, CallPlan, LeafPlan, ListPlan, MatchPlan, RecordPlan, SelectPlan, UnaryPlan,
         WeightFields, WitOf;
    var Range(from, to, inclusive) := e.kind;
    var flag := [PushLit(BoolVT(inclusive))];
    SmallChunks(Chunk(from, flag), Chunk(from, []), Chunk(from, []));
    if to.Some? {
      SmallChunks(Chunk(from, []), Chunk(to.value, flag), Chunk(from, []));
    }
  }

  lemma LoopShrinks(e: Expr, n: nat)
    requires hide *; e.kind.Cond? || e.kind.Comprehension? || e.kind.Reduce?
    ensures PlanOf(e, n).Parts? ==> ChunksWeight(PlanOf(e, n).chunks) < Weight(e)
  {
    hide MatchPlan, RecordPlan, LeafPlan, CallPlan, SelectPlan, ChunksWeight, WitOf;
    match e.kind
    case Cond(c, l, r) =>
      var cs := CondChunks(c, l, r, n);
      SmallChunks(cs[0], cs[1], cs[2]);
    case Comprehension(v, i, b) =>
      if WitOf(e.ty).Some? {
        var cs := ComprehensionChunks(v, i, b, WitOf(e.ty).value, n);
        SmallChunks(cs[0], cs[1], cs[1]);
      }
    case Reduce(rv, v, i, s, b) =>
      var cs := ReduceChunks(rv, v, i, s, b, n);
      SmallChunks(cs[0], cs[1], cs[2]);
  }

  // ---------- the recursive generator ----------

  /** Code and the last label index used so far. */
  datatype Code = Code(code: seq<IR>, last: nat)

  type Generated = Result<Code, GenError>

  function Then(g: Generated, tail: seq<IR>): Generated {
    if g.Err? then g else Ok(Code(g.value.code + tail, g.value.last))
  }

  function Gen(e: Expr, n: nat): Generated
    decreases Weight(e), 0, 0
  {
    hide *;
    PlanShrinks(e, n);
    match PlanOf(e, n)
    case Parts(chunks, tail, labels) => Then(GenChunks(chunks, n + labels), tail)
    case Rewrite(to) => Gen(to, n)
    case Bad(err) => Err(err)
  }

  /** Sub-expressions get their labels from the last one to the first, whatever the order of their code. */
  function GenChunks(cs: seq<Chunk>, n: nat): Generated
    decreases ChunksWeight(cs), 1, |cs|
  {
    hide Gen, Weight, Then;
    if cs == [] then Ok(Code([], n)) else
    var last := cs[|cs| - 1];
    var g := Gen(last.e, n);
    if g.Err? then g else
    Then(GenChunks(cs[..|cs| - 1], g.value.last), g.value.code + last.tail)
  }

  /** The code of a plan. */
  function Generate(p: Plan, n: nat): Generated {
    hide *;
    match p
    case Parts(chunks, tail, labels) => Then(GenChunks(chunks, n + labels), tail)
    case Rewrite(to) => Gen(to, n)
    case Bad(err) => Err(err)
  }

  lemma GenUnfold(e: Expr, n: nat)
    ensures Gen(e, n) == Generate(PlanOf(e, n), n)
  {
    hide PlanOf, Weight, ChunksWeight, GenChunks;
  }

  // ---------- the worklist ----------

  datatype ExprState = Pending(e: Expr) | Ready(ir: IR)

  function StateWeight(s: ExprState): nat { hide *; if s.Pending? then Weight(s.e) else 1 }

  function StackWeight(stack: seq<ExprState>): nat {
    hide *;
    if stack == [] then 0 else StackWeight(stack[..|stack| - 1]) + StateWeight(stack[|stack| - 1])
  }

  /** What is left to do: the code of the stack, labels handed out from its top, in front of the code emitted. */
  function EmitOnto(stack: seq<ExprState>, n: nat, done: seq<IR>): Result<seq<IR>, GenError>
    decreases |stack|
  {
    hide *;
    if stack == [] then Ok(done) else
    var top, below := stack[|stack| - 1], stack[..|stack| - 1];
    match top
    case Ready(ir) => EmitOnto(below, n, [ir] + done)
    case Pending(e) => Onto(below, Gen(e, n), done)
  }

  /** The same when the code of the top is already known. */
  function Onto(below: seq<ExprState>, g: Generated, done: seq<IR>): Result<seq<IR>, GenError>
    decreases |below| + 1, 0
  {
    hide *;
    if g.Err? then Err(g.error) else EmitOnto(below, g.value.last, g.value.code + done)
  }

  function AllReady(irs: seq<IR>): (ss: seq<ExprState>)
    ensures |ss| == |irs|
  {
    seq(|irs|, i requires 0 <= i < |irs| => Ready(irs[i]))
  }

  function States(cs: seq<Chunk>): seq<ExprState> {
    if cs == [] then [] else States(cs[..|cs| - 1]) + [Pending(cs[|cs| - 1].e)] + AllReady(cs[|cs| - 1].tail)
  }

  lemma {:induction false} EmitReady(below: seq<ExprState>, ir: IR, n: nat, done: seq<IR>)
    ensures EmitOnto(below + [Ready(ir)], n, done) == EmitOnto(below, n, [ir] + done)
    ensures StackWeight(below + [Ready(ir)]) == StackWeight(below) + 1
  {
    hide ChunksWeight, GenChunks, Onto, PlanOf, Weight;
    assert (below + [Ready(ir)])[..|below|] == below;
  }

  lemma {:induction false} EmitPending(below: seq<ExprState>, e: Expr, n: nat, done: seq<IR>)
    ensures EmitOnto(below + [Pending(e)], n, done) == Onto(below, Gen(e, n), done)
    ensures StackWeight(below + [Pending(e)]) == StackWeight(below) + Weight(e)
  {
    hide Gen, Weight;
    assert (below + [Pending(e)])[..|below|] == below;
  }

  lemma {:induction false} EmitAllReady(below: seq<ExprState>, irs: seq<IR>, n: nat, done: seq<IR>)
    ensures EmitOnto(below + AllReady(irs), n, done) == EmitOnto(below, n, irs + done)
    ensures StackWeight(below + AllReady(irs)) == StackWeight(below) + |irs|
    decreases |irs|
  {
    hide Gen, Onto, StateWeight, Weight;
    if irs == [] {
      assert below + AllReady(irs) == below && irs + done == done;
    } else {
      var front, last := irs[..|irs| - 1], irs[|irs| - 1];
      assert below + AllReady(irs) == (below + AllReady(front)) + [Ready(last)];
      EmitReady(below + AllReady(front), last, n, done);
      EmitAllReady(below, front, n, [last] + done);
      assert front + ([last] + done) == irs + done;
    }
  }

  lemma {:induction false} OntoAssociates(below: seq<ExprState>, f: Generated, a: seq<IR>, b: seq<IR>, done: seq<IR>)
    ensures Onto(below, Then(f, a + b), done) == Onto(below, f, a + (b + done))
  {
    hide EmitOnto;
    if f.Ok? {
      assert f.value.code + (a + (b + done)) == (f.value.code + (a + b)) + done;
    }
  }

  lemma LastChunkCode(cs: seq<Chunk>, n: nat)
    requires hide *; cs != []
    ensures var last := cs[|cs| - 1]; var g := Gen(last.e, n);
            GenChunks(cs, n) == if g.Err? then g else Then(GenChunks(cs[..|cs| - 1], g.value.last), g.value.code + last.tail)
  {
    hide Gen, Weight;
  }

  lemma {:induction false} EmitChunks(below: seq<ExprState>, cs: seq<Chunk>, n: nat, done: seq<IR>)
    ensures EmitOnto(below + States(cs), n, done) == Onto(below, GenChunks(cs, n), done)
    ensures StackWeight(below + States(cs)) == StackWeight(below) + ChunksWeight(cs)
    decreases |cs|
  {
    hide Gen, GenChunks, Weight, EmitOnto, StackWeight, Then;
    if cs == [] {
      NoChunks(below, n, done);
    } else {
      var front, last := cs[..|cs| - 1], cs[|cs| - 1];
      var under := below + States(front);
      assert below + States(cs) == under + [Pending(last.e)] + AllReady(last.tail);
      EmitAllReady(under + [Pending(last.e)], last.tail, n, done);
      EmitPending(under, last.e, n, last.tail + done);
      EmitChunks(below, front, n, done);
      LastChunkCode(cs, n);
      var g := Gen(last.e, n);
      if g.Ok? {
        EmitChunks(below, front, g.value.last, g.value.code + (last.tail + done));
        OntoAssociates(below, GenChunks(front, g.value.last), g.value.code, last.tail, done);
      }
    }
  }

  lemma NoChunks(below: seq<ExprState>, n: nat, done: seq<IR>)
    ensures EmitOnto(below + States([]), n, done) == Onto(below, GenChunks([], n), done)
    ensures StackWeight(below + States([])) == StackWeight(below) + ChunksWeight([])
  {
    hide ChunkWeight, Gen, StateWeight, Weight;
    assert below + States([]) == below && [] + done == done;
  }

  class Generator {
    var stack: seq<ExprState>
    var instructions: seq<IR>
    var instructionId: nat

    constructor (e: Expr)
      ensures stack == [Pending(e)] && instructions == [] && instructionId == 0
    {
      stack, instructions, instructionId := [Pending(e)], [], 0;
    }

    /** The program this generator is going to produce from its present state. */
    ghost function Outcome(): Result<seq<IR>, GenError>
      reads this
    {
      hide *;
      EmitOnto(stack, instructionId, Reverse(instructions))
    }

    method PushIR(ir: IR)
      modifies this`instructions
      ensures hide *; instructions == old(instructions) + [ir]
      ensures Reverse(instructions) == [ir] + Reverse(old(instructions))
    {
      instructions := instructions + [ir];
      assert Reverse(instructions) == [ir] + Reverse(old(instructions));
    }

    method PushChunk(c: Chunk)
      modifies this`stack
      ensures stack == old(stack) + [Pending(c.e)] + AllReady(c.tail)
    {
      stack := stack + [Pending(c.e)];
      for i := 0 to |c.tail|
        invariant stack == old(stack) + [Pending(c.e)] + AllReady(c.tail[..i])
      {
        stack := stack + [Ready(c.tail[i])];
      }
      assert c.tail[..|c.tail|] == c.tail;
    }

    method PushChunks(cs: seq<Chunk>)
      modifies this`stack
      ensures stack == old(stack) + States(cs)
    {
      for i := 0 to |cs|
        invariant stack == old(stack) + States(cs[..i])
      {
        assert cs[..i + 1][..i] == cs[..i];
        PushChunk(cs[i]);
        assert stack == old(stack) + States(cs[..i + 1]);
      }
      assert cs[..|cs|] == cs;
    }

    /** Instructions that follow all operands go straight into the buffer, the last one first. */
    method PushTail(tail: seq<IR>)
      modifies this`instructions
      ensures Reverse(instructions) == tail + Reverse(old(instructions))
    {
      hide Reverse;
      var i := |tail|;
      while i > 0
        invariant 0 <= i <= |tail|
        invariant Reverse(instructions) == tail[i..] + Reverse(old(instructions))
      {
        i := i - 1;
        PushIR(tail[i]);
        assert tail[i..] == [tail[i]] + tail[i + 1..];
      }
    }

    /** One expression off the stack: the final program does not change and the stack gets lighter. */
    method ProcessExpr(e: Expr) returns (r: Result<(), GenError>)
      modifies this
      ensures hide *; r.Ok? ==> Outcome() == Onto(old(stack), Gen(e, old(instructionId)), Reverse(old(instructions)))
      ensures r.Ok? ==> StackWeight(stack) < StackWeight(old(stack)) + Weight(e)
      ensures r.Err? ==> Gen(e, old(instructionId)) == Err(r.error)
    {
      hide PlanOf, StateWeight;
      ghost var done := Reverse(instructions);
      PlanShrinks(e, instructionId);
      hide PlanOf, GenChunks, EmitOnto, StackWeight, Weight, States;
      match PlanOf(e, instructionId) {
        case Bad(err) =>
          return Err(err);
        case Rewrite(to) =>
          EmitPending(stack, to, instructionId, done);
          stack := stack + [Pending(to)];
        case Parts(chunks, tail, labels) =>
          instructionId := instructionId + labels;
          EmitChunks(stack, chunks, instructionId, tail + done);
          ghost var g := GenChunks(chunks, instructionId);
          if g.Ok? {
            assert g.value.code + (tail + done) == (g.value.code + tail) + done;
          }
          PushChunks(chunks);
          PushTail(tail);
      }
      return Ok(());
    }
  }

  /** The worklist terminates on every expression and computes the code of the recursive generator, with labels
      counted from zero, or its error. */
  method FromExpr(e: Expr) returns (r: Result<seq<IR>, GenError>)
    ensures hide *; Gen(e, 0).Ok? ==> r == Ok(Gen(e, 0).value.code)
    ensures Gen(e, 0).Err? ==> r == Err(Gen(e, 0).error)
  {
    hide Desugar.Match, Typed, Gen, ListPlan;
    var g := new Generator(e);
    EmitPending([], e, 0, []);
    assert [] + [Pending(e)] == [Pending(e)];
    ghost var target := g.Outcome();
    if Gen(e, 0).Ok? {
      assert Gen(e, 0).value.code + [] == Gen(e, 0).value.code;
    }
    assert target == if Gen(e, 0).Ok? then Ok(Gen(e, 0).value.code) else Err(Gen(e, 0).error);
    hide Gen, PlanOf, Weight;
    while g.stack != []
      invariant g.Outcome() == target
      invariant fresh(g)
      decreases StackWeight(g.stack)
    {
      var top := g.stack[|g.stack| - 1];
      assert top.Pending? ==> target == Onto(g.stack[..|g.stack| - 1], Gen(top.e, g.instructionId), Reverse(g.instructions));
      g.stack := g.stack[..|g.stack| - 1];
      match top {
        case Pending(sub) =>
          var ok := g.ProcessExpr(sub);
          if ok.Err? {
            return Err(ok.error);
          }
        case Ready(ir) =>
          g.PushIR(ir);
      }
    }
    r := Ok(Reverse(g.instructions));
  }

  // ===== Labels of generated code: each one is emitted once and every jump has its label; labels only depend on
  // where counting starts; without loops all jumps go forward.

  predicate IsJump(ir: IR) { ir.Jump? || ir.JumpIfFalse? }

  /** No label occurs twice. */
  ghost predicate Unique(code: seq<IR>) {
    forall i, j :: 0 <= i < j < |code| && code[i].Label? ==> code[i] != code[j]
  }

  ghost predicate LabelsWithin(code: seq<IR>, lo: nat, hi: nat) {
    forall i :: 0 <= i < |code| && code[i].Label? ==> lo < code[i].target <= hi
  }

  /** Every jump goes to a label of the code. */
  ghost predicate Closed(code: seq<IR>) {
    forall i :: 0 <= i < |code| && IsJump(code[i]) ==> Label(code[i].target) in code
  }

  function Tails(cs: seq<Chunk>): seq<IR> {
    if cs == [] then [] else Tails(cs[..|cs| - 1]) + cs[|cs| - 1].tail
  }

  ghost predicate Disjoint(a: seq<IR>, b: seq<IR>) {
    forall x :: x in a && x.Label? ==> x !in b
  }

  lemma UniqueConcat(a: seq<IR>, b: seq<IR>)
    ensures Unique(a + b) <==> Unique(a) && Unique(b) && Disjoint(a, b)
  {
    if Unique(a + b) {
      forall i, j | 0 <= i < j < |b| && b[i].Label? ensures b[i] != b[j] {
        assert (a + b)[|a| + i] != (a + b)[|a| + j];
      }
      forall i, j | 0 <= i < j < |a| && a[i].Label? ensures a[i] != a[j] {
        assert (a + b)[i] != (a + b)[j];
      }
      forall i, j | 0 <= i < |a| && 0 <= j < |b| && a[i].Label? ensures a[i] != b[j] {
        assert (a + b)[i] != (a + b)[|a| + j];
      }
    }
  }

  // ---------- labels of plans ----------

  ghost predicate PlanLabelsGood(p: Plan, n: nat) {
    hide *;
    p.Parts? ==>
      var all := Tails(p.chunks) + p.tail;
      LabelsWithin(all, n, n + p.labels) && Unique(all) && Closed(all) && LabelFree(p.tail)
  }

  ghost predicate LabelFree(code: seq<IR>) {
    forall x :: x in code ==> !x.Label? && !IsJump(x)
  }

  lemma TailsOfPlainly(es: seq<Expr>)
    ensures Tails(Plainly(es)) == []
  {
    if es != [] {
      assert Plainly(es)[..|es| - 1] == Plainly(es[..|es| - 1]);
      TailsOfPlainly(es[..|es| - 1]);
    }
  }

  lemma {:induction false} SmallTails(a: Chunk, b: Chunk, c: Chunk)
    ensures Tails([a]) == a.tail
    ensures Tails([a, b]) == a.tail + b.tail
    ensures Tails([a, b, c]) == a.tail + b.tail + c.tail
  {
    assert [a, b, c][..2] == [a, b] && [a, b][..1] == [a] && [a][..0] == [];
  }

  lemma UpdatesLabelFree(fs: seq<Field<Expr>>)
    ensures LabelFree(Updates(fs))
  {
  }

  lemma LabelFreeGood(p: Plan, n: nat)
    requires hide *; p.Parts? && LabelFree(Tails(p.chunks)) && LabelFree(p.tail)
    ensures PlanLabelsGood(p, n)
  {
    assert forall i :: 0 <= i < |Tails(p.chunks) + p.tail| ==>
      (Tails(p.chunks) + p.tail)[i] in Tails(p.chunks) || (Tails(p.chunks) + p.tail)[i] in p.tail;
  }

  lemma OperandsGood(es: seq<Expr>, tail: seq<IR>, n: nat)
    requires LabelFree(tail)
    ensures PlanLabelsGood(Operands(es, tail), n)
  {
    TailsOfPlainly(es);
    LabelFreeGood(Operands(es, tail), n);
  }

  lemma CallTailFree(ct: CallType, args: seq<Expr>, ty: InferredType)
    requires hide *; CallPlan(ct, args, ty).Parts?
    ensures LabelFree(CallPlan(ct, args, ty).tail)
  {
    hide WitOf, Weight, WeightAll, Reverse, CallReceiver, OwnerReceiver, IsUnit;
  }

  lemma {:induction false} CallGood(ct: CallType, args: seq<Expr>, ty: InferredType, n: nat)
    ensures PlanLabelsGood(CallPlan(ct, args, ty), n)
  {
    hide CallPlan, Reverse, LabelFree, Tails;
    var p := CallPlan(ct, args, ty);
    if p.Parts? {
      CallTailFree(ct, args, ty);
      var es := if ct.WorkerCreation? && ct.workerName.Some? then [ct.workerName.value] else Reverse(args);
      OperandsGood(es, p.tail, n);
    }
  }

  lemma LeafTailFree(leaf: Leaf, ty: InferredType)
    requires hide *; LeafPlan(leaf, ty).Parts?
    ensures LabelFree(LeafPlan(leaf, ty).tail)
  {
    hide WitOf, NumberAs;
  }

  lemma LeafGood(leaf: Leaf, ty: InferredType, n: nat)
    ensures PlanLabelsGood(LeafPlan(leaf, ty), n)
  {
    hide LeafPlan, LabelFree;
    var p := LeafPlan(leaf, ty);
    if p.Parts? {
      LeafTailFree(leaf, ty);
      assert Plainly([]) == [];
      OperandsGood([], p.tail, n);
    }
  }

  lemma UnaryTailFree(op: UnaryOp, a: Expr, ty: InferredType)
    requires hide *; UnaryPlan(op, a, ty).Parts?
    ensures LabelFree(UnaryPlan(op, a, ty).tail) && LabelFree(UnaryPlan(op, a, ty).chunks[0].tail)
  {
    hide WitOf, Weight;
  }

  lemma {:induction false} UnaryGood(op: UnaryOp, a: Expr, ty: InferredType, n: nat)
    ensures PlanLabelsGood(UnaryPlan(op, a, ty), n)
  {
    hide UnaryPlan, LabelFree, Tails;
    var p := UnaryPlan(op, a, ty);
    if p.Parts? {
      UnaryTailFree(op, a, ty);
      SmallTails(p.chunks[0], p.chunks[0], p.chunks[0]);
      assert p.chunks == [p.chunks[0]];
      LabelFreeGood(p, n);
    }
  }

  lemma {:induction false} RangeGood(from: Expr, to: Option<Expr>, inclusive: bool, ty: InferredType, n: nat)
    ensures PlanLabelsGood(RangePlan(from, to, inclusive, ty), n)
  {
    hide WitOf, Tails, Unique, Closed, BoolVT;
    var p := RangePlan(from, to, inclusive, ty);
    hide WitOf;
    if p.Parts? {
      SmallTails(p.chunks[0], p.chunks[|p.chunks| - 1], p.chunks[0]);
      LabelFreeGood(p, n);
    }
  }

  lemma OperatorGood(e: Expr, n: nat)
    requires e.kind.Binary? || e.kind.Record? || e.kind.ListOf?
    ensures PlanLabelsGood(PlanOf(e, n), n)
  {
    hide MatchPlan, LeafPlan, CallPlan, Exprs;
    var p := PlanOf(e, n);
    hide WitOf;
    if p.Parts? {
      match e.kind
      case Binary(op, l, r) => OperandsGood([r, l], p.tail, n);
      case Record(fs) =>
        UpdatesLabelFree(fs);
        OperandsGood(Reverse(Exprs(fs)), p.tail, n);
      case ListOf(op, es) => OperandsGood(Reverse(es), p.tail, n);
    }
  }

  /** Two labels handed out together, and jumps to them. */
  lemma {:induction false} TwoLabels(all: seq<IR>, p: nat, q: nat, n: nat)
    requires p < q < |all| && all[p].Label? && all[q].Label?
    requires all[p].target + all[q].target == 2 * n + 3 && n < all[p].target <= n + 2
    requires forall i :: 0 <= i < |all| && all[i].Label? ==> i == p || i == q
    requires forall i :: 0 <= i < |all| && IsJump(all[i]) ==> n < all[i].target <= n + 2
    ensures LabelsWithin(all, n, n + 2) && Unique(all) && Closed(all)
  {
  }

  lemma {:induction false} CondGood(c: Expr, l: Expr, r: Expr, n: nat)
    ensures hide *; PlanLabelsGood(Parts(CondChunks(c, l, r, n), [], 2), n)
  {
    hide Tails;
    var cs := CondChunks(c, l, r, n);
    SmallTails(cs[0], cs[1], cs[2]);
    var all := Tails(cs) + [];
    assert all == [JumpIfFalse(n + 1), Jump(n + 2), Label(n + 1), Label(n + 2)];
    TwoLabels(all, 2, 3, n);
  }

  lemma {:induction false} ComprehensionGood(v: VariableId, i: Expr, b: Expr, w: WitType, n: nat)
    ensures hide *; PlanLabelsGood(Parts(ComprehensionChunks(v, i, b, w, n), [], 2), n)
  {
    hide Tails;
    var cs := ComprehensionChunks(v, i, b, w, n);
    SmallTails(cs[0], cs[1], cs[1]);
    var all := Tails(cs) + [];
    assert all == [ToIterator, CreateSink(w), Label(n + 1), IsEmpty, JumpIfFalse(n + 2), AdvanceIterator, AssignVar(v),
                   PushToSink, Jump(n + 1), Label(n + 2), SinkToList];
    TwoLabels(all, 2, 9, n);
  }

  lemma {:induction false} ReduceGood(rv: VariableId, v: VariableId, i: Expr, s: Expr, b: Expr, n: nat)
    ensures hide *; PlanLabelsGood(Parts(ReduceChunks(rv, v, i, s, b, n), [], 2), n)
  {
    hide Tails;
    var cs := ReduceChunks(rv, v, i, s, b, n);
    SmallTails(cs[0], cs[1], cs[2]);
    var all := Tails(cs) + [];
    assert all == [AssignVar(rv), ToIterator, Label(n + 1), IsEmpty, JumpIfFalse(n + 2), AdvanceIterator, AssignVar(v),
                   AssignVar(rv), Jump(n + 1), Label(n + 2), LoadVar(rv)];
    TwoLabels(all, 2, 9, n);
  }

  lemma PlanGood(e: Expr, n: nat)
    ensures PlanLabelsGood(PlanOf(e, n), n)
  {
    hide Typed, Exprs;
    match e.kind
    case Block(es) => OperandsGood(es, [], n);
    case Let(v, b) => OperandsGood([b], [AssignVar(v)], n);
    case PatternMatch(_, _) =>
    case SelectIndex(l, i) => OperandsGood([i, l], [SelectIndexV1], n);
    case Call(ct, args) => CallGood(ct, args, e.ty, n);
    case InvokeMethodLazy(_, _, _) => OperandsGood([], [], n);
    case Cond(c, l, r) => CondGood(c, l, r, n);
    case Comprehension(v, i, b) => if WitOf(e.ty).Some? { ComprehensionGood(v, i, b, WitOf(e.ty).value, n); }
    case Reduce(rv, v, i, s, b) => ReduceGood(rv, v, i, s, b, n);
    case Atom(leaf) => LeafGood(leaf, e.ty, n);
    case Unary(op, a) => UnaryGood(op, a, e.ty, n);
    case Range(from, to, inclusive) => RangeGood(from, to, inclusive, e.ty, n);
    case _ => OperatorGood(e, n);
  }

  // ---------- labels of generated code ----------

  /** A label of the code is either one of the tails or was handed out after the first n. */
  ghost predicate LabelsFrom(code: seq<IR>, tails: seq<IR>, n: nat, last: nat) {
    forall x :: x in code && x.Label? ==> x in tails || n < x.target <= last
  }

  /** A jump of the code goes to a label of the code, or is one of the tails. */
  ghost predicate JumpsInto(code: seq<IR>, tails: seq<IR>) {
    forall x :: x in code && IsJump(x) ==> Label(x.target) in code || x in tails
  }

  ghost predicate CodeGood(c: Code, tails: seq<IR>, n: nat) {
    && n <= c.last
    && Unique(c.code)
    && LabelsFrom(c.code, tails, n, c.last)
    && JumpsInto(c.code, tails)
    && (forall x :: x in tails ==> x in c.code)
  }

  /** Labels of an expression: handed out after the first n, each emitted once, and every jump stays inside. */
  lemma {:induction false} GenLabels(e: Expr, n: nat)
    ensures hide *; Gen(e, n).Ok? ==> CodeGood(Gen(e, n).value, [], n)
    decreases Weight(e), 0, 0
  {
    PlanShrinks(e, n);
    PlanGood(e, n);
    GenUnfold(e, n);
    var p := PlanOf(e, n);
    hide PlanOf, Weight, ChunksWeight;
    match p
    case Bad(err) =>
    case Rewrite(to) => GenLabels(to, n);
    case Parts(chunks, tail, labels) =>
      if GenChunks(chunks, n + labels).Ok? {
        var c := GenChunks(chunks, n + labels).value;
        UniqueConcat(Tails(chunks), tail);
        TailsWithin(Tails(chunks), tail, n, n + labels);
        ChunksLabels(chunks, n, n + labels);
        PartsGood(c, Tails(chunks), tail, n, n + labels);
      }
  }

  lemma {:induction false} TailsWithin(a: seq<IR>, b: seq<IR>, lo: nat, hi: nat)
    requires LabelsWithin(a + b, lo, hi)
    ensures LabelsWithin(a, lo, hi)
  {
    forall i | 0 <= i < |a| && a[i].Label? ensures lo < a[i].target <= hi {
      assert (a + b)[i] == a[i];
    }
  }

  lemma {:induction false} PartsGood(c: Code, tails: seq<IR>, tail: seq<IR>, lo: nat, n: nat)
    requires CodeGood(c, tails, n)
    requires lo <= n && LabelsWithin(tails, lo, n) && Closed(tails + tail) && LabelFree(tail)
    ensures CodeGood(Code(c.code + tail, c.last), [], lo)
  {
    var code := c.code + tail;
    UniqueConcat(c.code, tail);
    forall x | x in code && x.Label? ensures lo < x.target <= c.last {
      assert x in c.code;
      if x in tails {
        var i :| 0 <= i < |tails| && tails[i] == x;
      }
    }
    forall x | x in code && IsJump(x) ensures Label(x.target) in code {
      assert x in c.code;
      if x in tails {
        var i :| 0 <= i < |tails| && tails[i] == x;
        assert (tails + tail)[i] == x;
        assert Label(x.target) in tails + tail;
        assert Label(x.target) !in tail;
      }
    }
  }

  lemma {:induction false} ChunksLabels(cs: seq<Chunk>, lo: nat, n: nat)
    requires hide *; lo <= n && LabelsWithin(Tails(cs), lo, n) && Unique(Tails(cs))
    ensures GenChunks(cs, n).Ok? ==> CodeGood(GenChunks(cs, n).value, Tails(cs), n)
    decreases ChunksWeight(cs), 1, |cs|
  {
    hide ArmCost, Gen, Weight, Unique;
    if cs != [] && GenChunks(cs, n).Ok? {
      var front, last := cs[..|cs| - 1], cs[|cs| - 1];
      UniqueConcat(Tails(front), last.tail);
      TailsWithin(Tails(front), last.tail, lo, n);
      GenLabels(last.e, n);
      var g := Gen(last.e, n).value;
      ChunksLabels(front, lo, g.last);
      var f := GenChunks(front, g.last).value;
      AppendGood(f, Tails(front), g, last.tail, lo, n);
    }
  }

  lemma {:induction false} AppendGood(f: Code, fTails: seq<IR>, g: Code, tail: seq<IR>, lo: nat, n: nat)
    requires lo <= n && CodeGood(g, [], n) && CodeGood(f, fTails, g.last)
    requires LabelsWithin(fTails + tail, lo, n) && Unique(fTails + tail)
    ensures CodeGood(Code(f.code + (g.code + tail), f.last), fTails + tail, n)
  {
    UniqueConcat(fTails, tail);
    InTails(fTails, tail, lo, n);
    UniqueConcat(g.code, tail);
    UniqueConcat(f.code, g.code + tail);
    var code := f.code + (g.code + tail);
    forall x | x in code ensures x in f.code || x in g.code || x in tail { }
    forall x | x in f.code && x.Label? ensures x !in g.code + tail { }
    forall x | x in g.code && x.Label? ensures x !in tail { }
  }

  lemma {:induction false} InTails(a: seq<IR>, b: seq<IR>, lo: nat, hi: nat)
    requires hide *; LabelsWithin(a + b, lo, hi)
    ensures forall x :: x in a && x.Label? ==> lo < x.target <= hi
    ensures forall x :: x in b && x.Label? ==> lo < x.target <= hi
  {
    forall x | x in a && x.Label? ensures lo < x.target <= hi {
      var i :| 0 <= i < |a| && a[i] == x;
      assert (a + b)[i] == x;
    }
    forall x | x in b && x.Label? ensures lo < x.target <= hi {
      var i :| 0 <= i < |b| && b[i] == x;
      assert (a + b)[|a| + i] == x;
    }
  }

  // ---------- shifting labels ----------

  function Relabel(ir: IR, k: nat): IR {
    match ir
    case Jump(l) => Jump(l + k)
    case JumpIfFalse(l) => JumpIfFalse(l + k)
    case Label(l) => Label(l + k)
    case _ => ir
  }

  function Shift(code: seq<IR>, k: nat): (r: seq<IR>)
    ensures hide *; |r| == |code|
    ensures forall i :: 0 <= i < |code| ==> r[i] == Relabel(code[i], k)
  {
    seq(|code|, i requires 0 <= i < |code| => Relabel(code[i], k))
  }

  function ShiftChunks(cs: seq<Chunk>, k: nat): (r: seq<Chunk>)
    ensures hide *; |r| == |cs|
    ensures forall i :: 0 <= i < |cs| ==> r[i] == Chunk(cs[i].e, Shift(cs[i].tail, k))
  {
    seq(|cs|, i requires 0 <= i < |cs| => Chunk(cs[i].e, Shift(cs[i].tail, k)))
  }

  function ShiftCode(g: Generated, k: nat): Generated {
    hide *;
    if g.Err? then g else Ok(Code(Shift(g.value.code, k), g.value.last + k))
  }

  lemma ShiftLabelFree(code: seq<IR>, k: nat)
    requires LabelFree(code)
    ensures Shift(code, k) == code
  {
    assert forall i :: 0 <= i < |code| ==> code[i] in code;
  }

  lemma LabelFreeShift(p: Plan, k: nat)
    requires hide *; p.Parts? && LabelFree(Tails(p.chunks))
    ensures ShiftChunks(p.chunks, k) == p.chunks
  {
    forall i | 0 <= i < |p.chunks| ensures Shift(p.chunks[i].tail, k) == p.chunks[i].tail {
      TailInTails(p.chunks, i);
      ShiftLabelFree(p.chunks[i].tail, k);
    }
  }

  lemma TailInTails(cs: seq<Chunk>, i: nat)
    requires i < |cs|
    ensures forall x :: x in cs[i].tail ==> x in Tails(cs)
  {
    if i < |cs| - 1 {
      TailInTails(cs[..|cs| - 1], i);
    }
  }

  function ShiftPlan(p: Plan, k: nat): Plan {
    match p case Parts(chunks, tail, labels) => Parts(ShiftChunks(chunks, k), tail, labels) case _ => p
  }

  /** A plan that hands out no labels does not depend on where counting starts. */
  lemma PlanShift(e: Expr, n: nat, k: nat)
    ensures hide *; PlanOf(e, n + k) == ShiftPlan(PlanOf(e, n), k)
  {
    hide MatchPlan;
    var p := PlanOf(e, n);
    if p.Parts? && p.labels == 0 {
      PlanGood(e, n);
      NoLabels(p, n);
      LabelFreeShift(p, k);
    }
    match e.kind
    case Cond(c, l, r) => ShiftCond(c, l, r, n, k);
    case Comprehension(v, i, b) => if WitOf(e.ty).Some? { ShiftComprehension(v, i, b, WitOf(e.ty).value, n, k); }
    case Reduce(rv, v, i, s, b) => ShiftReduce(rv, v, i, s, b, n, k);
    case _ =>
  }

  lemma ShiftConcat(a: seq<IR>, b: seq<IR>, k: nat)
    ensures Shift(a + b, k) == Shift(a, k) + Shift(b, k)
  {
    hide Relabel;
  }

  lemma ShiftHead(n: nat, v: VariableId, k: nat)
    ensures hide *; Shift(LoopHead(n, v), k) == LoopHead(n + k, v)
  {
  }

  lemma SameChunks(a: seq<Chunk>, b: seq<Chunk>, k: nat)
    requires hide *; |a| == |b| && forall i :: 0 <= i < |a| ==> b[i].e == a[i].e && b[i].tail == Shift(a[i].tail, k)
    ensures b == ShiftChunks(a, k)
  {
    hide Shift;
  }

  lemma {:induction false} ShiftCond(c: Expr, l: Expr, r: Expr, n: nat, k: nat)
    ensures hide *; CondChunks(c, l, r, n + k) == ShiftChunks(CondChunks(c, l, r, n), k)
  {
    hide ShiftChunks, Shift;
    var cs, ds := CondChunks(c, l, r, n), CondChunks(c, l, r, n + k);
    assert ds[0].tail == Shift(cs[0].tail, k);
    assert ds[1].tail == Shift(cs[1].tail, k);
    assert ds[2].tail == Shift(cs[2].tail, k);
    SameChunks(cs, ds, k);
  }

  lemma {:induction false} ShiftComprehension(v: VariableId, i: Expr, b: Expr, w: WitType, n: nat, k: nat)
    ensures hide *; ComprehensionChunks(v, i, b, w, n + k) == ShiftChunks(ComprehensionChunks(v, i, b, w, n), k)
  {
    hide ShiftChunks, LoopHead, Shift;
    var cs, ds := ComprehensionChunks(v, i, b, w, n), ComprehensionChunks(v, i, b, w, n + k);
    ShiftHead(n, v, k);
    ShiftConcat([ToIterator, CreateSink(w)], LoopHead(n, v), k);
    assert Shift([ToIterator, CreateSink(w)], k) == [ToIterator, CreateSink(w)];
    assert ds[0].tail == Shift(cs[0].tail, k);
    assert ds[1].tail == Shift(cs[1].tail, k);
    SameChunks(cs, ds, k);
  }

  lemma {:induction false} ShiftReduce(rv: VariableId, v: VariableId, i: Expr, s: Expr, b: Expr, n: nat, k: nat)
    ensures hide *; ReduceChunks(rv, v, i, s, b, n + k) == ShiftChunks(ReduceChunks(rv, v, i, s, b, n), k)
  {
    hide ShiftChunks, LoopHead;
    var cs, ds := ReduceChunks(rv, v, i, s, b, n), ReduceChunks(rv, v, i, s, b, n + k);
    ShiftHead(n, v, k);
    ShiftConcat([AssignVar(rv), ToIterator], LoopHead(n, v), k);
    assert Shift([AssignVar(rv), ToIterator], k) == [AssignVar(rv), ToIterator];
    assert ds[0].tail == Shift(cs[0].tail, k);
    assert ds[1].tail == Shift(cs[1].tail, k);
    assert ds[2].tail == Shift(cs[2].tail, k);
    SameChunks(cs, ds, k);
  }

  /** Without labels of its own a plan has no jumps either. */
  lemma NoLabels(p: Plan, n: nat)
    requires hide *; p.Parts? && p.labels == 0 && PlanLabelsGood(p, n)
    ensures LabelFree(Tails(p.chunks))
  {
    var all := Tails(p.chunks) + p.tail;
    assert forall i :: 0 <= i < |all| ==> !all[i].Label?;
    assert forall i :: 0 <= i < |all| ==> !IsJump(all[i]);
    assert forall i :: 0 <= i < |Tails(p.chunks)| ==> Tails(p.chunks)[i] == all[i];
  }

  lemma ThenShift(g: Generated, tail: seq<IR>, k: nat)
    requires LabelFree(tail)
    ensures ShiftCode(Then(g, tail), k) == Then(ShiftCode(g, k), tail)
  {
    ShiftLabelFree(tail, k);
    if g.Ok? {
      assert Shift(g.value.code + tail, k) == Shift(g.value.code, k) + Shift(tail, k);
    }
  }

  /** Code generated with labels counted from n + k is the code counted from n with all labels moved by k. */
  lemma {:induction false} GenShift(e: Expr, n: nat, k: nat)
    ensures hide *; Gen(e, n + k) == ShiftCode(Gen(e, n), k)
    decreases Weight(e), 0, 0
  {
    hide PlanOf, Weight, ChunksWeight, Gen, GenChunks, Then, Shift, ShiftChunks, Tails;
    PlanShrinks(e, n);
    PlanShift(e, n, k);
    GenUnfold(e, n);
    GenUnfold(e, n + k);
    PlanGood(e, n);
    match PlanOf(e, n)
    case Bad(err) =>
    case Rewrite(to) => GenShift(to, n, k);
    case Parts(chunks, tail, labels) =>
      ChunksShift(chunks, n + labels, k);
      assert n + k + labels == n + labels + k;
      ThenShift(GenChunks(chunks, n + labels), tail, k);
  }

  lemma {:induction false} ChunksShift(cs: seq<Chunk>, n: nat, k: nat)
    ensures hide *; GenChunks(ShiftChunks(cs, k), n + k) == ShiftCode(GenChunks(cs, n), k)
    decreases ChunksWeight(cs), 1, |cs|
  {
    hide Gen, Weight;
    if cs == [] {
      assert Shift([], k) == [];
    } else {
      var front, last := cs[..|cs| - 1], cs[|cs| - 1];
      assert ShiftChunks(cs, k)[..|cs| - 1] == ShiftChunks(front, k);
      GenShift(last.e, n, k);
      if Gen(last.e, n).Ok? {
        var g := Gen(last.e, n).value;
        ChunksShift(front, g.last, k);
        if GenChunks(front, g.last).Ok? {
          var f := GenChunks(front, g.last).value;
          assert Shift(f.code + (g.code + last.tail), k) == Shift(f.code, k) + (Shift(g.code, k) + Shift(last.tail, k));
        }
      }
    }
  }

  /** Appending statements to a block: the earlier instructions stay where they are and only their labels move, all by
      the number of labels the new statements use. */
  lemma {:induction false} AppendStatements(es: seq<Expr>, more: seq<Expr>, n: nat)
    requires hide *; GenChunks(Plainly(es), n).Ok? && GenChunks(Plainly(more), n).Ok?
    ensures GenChunks(Plainly(more), n).value.last >= n
    ensures GenChunks(Plainly(es + more), n)
            == Ok(After(GenChunks(Plainly(es), n).value, GenChunks(Plainly(more), n).value, n))
    decreases |more|
  {
    hide Gen, Weight, GenChunks, ShiftChunks;
    if more == [] {
      EmptyChunks(n);
      assert es + more == es;
      var c := GenChunks(Plainly(es), n).value;
      assert Shift(c.code, 0) == c.code && c.code + [] == c.code;
    } else {
      var front, last := more[..|more| - 1], more[|more| - 1];
      LastChunk(front, last, n);
      LastChunk(es + front, last, n);
      assert (es + front) + [last] == es + more && front + [last] == more;
      GenLabels(last, n);
      var g := Gen(last, n).value;
      var k := g.last - n;
      ChunksShift(Plainly(es), n, k);
      ShiftPlainly(es, k);
      AppendStatements(es, front, g.last);
      var old_ := GenChunks(Plainly(es), n).value;
      var mid := GenChunks(Plainly(front), g.last).value;
      ShiftTwice(old_.code, k, mid.last - g.last);
      var moved := Shift(old_.code, k + (mid.last - g.last));
      assert (moved + mid.code) + g.code == moved + (mid.code + g.code);
    }
  }

  /** Old code with its labels moved, then new code. */
  function After(old_: Code, new_: Code, n: nat): Code {
    hide *;
    var k := if new_.last >= n then new_.last - n else 0;
    Code(Shift(old_.code, k) + new_.code, old_.last + k)
  }

  lemma EmptyChunks(n: nat)
    ensures GenChunks(Plainly([]), n) == Ok(Code([], n))
  {
    hide Gen, Plainly;
  }

  lemma LastChunk(front: seq<Expr>, last: Expr, n: nat)
    ensures hide *; GenChunks(Plainly(front + [last]), n)
            == if Gen(last, n).Err? then Gen(last, n)
               else Then(GenChunks(Plainly(front), Gen(last, n).value.last), Gen(last, n).value.code)
  {
    hide PlanOf, ChunksWeight, Gen, Plainly, Then;
    assert Plainly(front + [last])[..|front|] == Plainly(front);
    if Gen(last, n).Ok? {
      assert Gen(last, n).value.code + [] == Gen(last, n).value.code;
    }
  }

  lemma ShiftPlainly(es: seq<Expr>, k: nat)
    ensures ShiftChunks(Plainly(es), k) == Plainly(es)
  {
    assert Shift([], k) == [];
  }

  lemma ShiftTwice(code: seq<IR>, j: nat, k: nat)
    ensures hide *; Shift(Shift(code, j), k) == Shift(code, j + k)
  {
  }
}
