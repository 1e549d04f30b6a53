/** Which expressions do not compile, and with which error. */
module CompileErrors {
  import opened Syntax
  import opened ByteCode
  import Desugar

  // ---------- errors of one expression ----------

  function Unless(ok: bool, error: GenError): Option<GenError> { if ok then None else Some(error) }

  function NoType(ty: InferredType): Option<GenError> {
    hide *;
    Unless(WitOf(ty).Some?, AnalysedTypeConversionError)
  }

  function First(a: Option<GenError>, b: Option<GenError>): Option<GenError> { if a.Some? then a else b }

  /** A call without a result needs no type. */
  function NoResult(ty: InferredType): Option<GenError> { if ty.inner == TSequence([]) then None else NoType(ty) }

  /** Receivers that inference has left open; without a variable, a resource can be called but not made. */
  function OpenReceiver(r: Receiver, made: bool): Option<GenError> {
    match r
    case NoInstance => Some(MissingInstance)
    case WorkerReceiver(v, _) => Unless(v.Some?, UnresolvedWorkerName)
    case ResourceReceiver(v, _, _) => Unless(v.Some? || !made, UnresolvedResourceVariable)
  }

  function LeafError(leaf: Leaf, ty: InferredType): Option<GenError> {
    hide *;
    match leaf
    case Number(n) =>
      if WitOf(ty).None? then Some(AnalysedTypeConversionError)
      else Unless(WitOf(ty).value.WNum? && NumberAs(n, WitOf(ty).value.num).Some?, CastError)
    case Flags(_) => Unless(ty.inner.TFlags?, UnexpectedTypeError)
    case _ => None
  }

  function CallError(ct: CallType, ty: InferredType): Option<GenError> {
    match ct
    case Function(_, receiver, component) =>
      First(NoResult(ty), First(OpenReceiver(receiver, false), Unless(component.Some?, UnresolvedWasmComponent)))
    case ResourceCreation(_, owner, component) =>
      First(OpenReceiver(owner, true), First(Unless(component.Some?, UnresolvedWasmComponent), NoResult(ty)))
    case WorkerCreation(_, _) => None
    case VariantConstructor(_) => NoType(ty)
    case EnumConstructor(_) => NoType(ty)
  }

  /** What is wrong with the expression itself. */
  function OwnError(e: Expr): Option<GenError> {
    hide *;
    match e.kind
    case Atom(leaf) => LeafError(leaf, e.ty)
    case Unary(op, _) => if op.MakeSome? || op.MakeOk? || op.MakeErr? then NoType(e.ty) else None
    case Binary(op, _, _) => if op.Math? then NoType(e.ty) else None
    case Record(_) => NoType(e.ty)
    case ListOf(op, _) => if op.Concat? then None else NoType(e.ty)
    case PatternMatch(p, arms) => Unless(Desugar.Match(p, arms).Some?, PatternMatchDesugarError)
    case SelectIndex(_, i) => Unless(i.ty.inner.TRange? ==> i.kind.Range?, RangeSelectionDesugarError)
    case Call(ct, _) => CallError(ct, e.ty)
    case Comprehension(_, _, _) => NoType(e.ty)
    case Range(_, _, _) => First(Unless(e.ty.inner.TRange?, UnexpectedTypeError), NoType(e.ty))
    case _ => None
  }

  // ---------- errors of the parts ----------

  /** What an expression is compiled from, in the order of its code. */
  function Inner(e: Expr): seq<Expr> {
    hide *;
    match e.kind
    case Unary(_, a) => [a]
    case Binary(op, l, r) => if op.And? || op.Or? then [l, r] else [r, l]
    case Record(fs) => Reverse(Exprs(fs))
    case ListOf(_, es) => Reverse(es)
    case Block(es) => es
    case Let(_, b) => [b]
    case Cond(c, l, r) => [c, l, r]
    case SelectIndex(l, i) => [i, l]
    case Call(ct, args) => if ct.WorkerCreation? && ct.workerName.Some? then [ct.workerName.value] else Reverse(args)
    case Comprehension(_, i, b) => [i, b]
    case Reduce(_, _, i, s, b) => [i, s, b]
    case Range(from, end, _) => if end.Some? then [from, end.value] else [from]
    case _ => []
  }

  /** Matches and selections of ranges are compiled as what they are rewritten to. */
  function Rewritten(e: Expr): Option<Expr> {
    hide *;
    match e.kind
    case PatternMatch(p, arms) => Desugar.Match(p, arms)
    case SelectIndex(l, i) => if i.ty.inner.TRange? then Desugar.RangeSelection(l, i) else None
    case _ => None
  }

  lemma InnerShrinks(e: Expr)
    ensures hide *; WeightAll(Inner(e)) < Weight(e)
  {
    hide ArmsCost, WeightAll, WeightFields;
    match e.kind {
      case Record(_) => ManyShrink(e);
      case ListOf(_, _) => ManyShrink(e);
      case Call(_, _) => ManyShrink(e);
      case Binary(_, l, r) => PairWeight(r, l); PairWeight(l, r);
      case SelectIndex(l, i) => PairWeight(i, l);
      case Cond(c, l, r) => TripleWeight(c, l, r);
      case Comprehension(_, i, b) => PairWeight(i, b);
      case Reduce(_, _, i, s, b) => TripleWeight(i, s, b);
      case Range(from, end, _) => FewWeight(from); if end.Some? { PairWeight(from, end.value); }
      case Unary(_, a) => FewWeight(a);
      case Let(_, b) => FewWeight(b);
      case Block(_) =>
      case _ => NoWeight();
    }
  }

  lemma ManyShrink(e: Expr)
    requires e.kind.Record? || e.kind.ListOf? || e.kind.Call?
    ensures WeightAll(Inner(e)) < Weight(e)
  {
    hide ArmCost;
    match e.kind
    case Record(fs) => ReverseWeight(Exprs(fs));
    case ListOf(_, es) => ReverseWeight(es);
    case Call(ct, args) => ReverseWeight(args);
    case _ =>
  }

  lemma NoWeight()
    ensures WeightAll([]) == 0
  {
  }

  lemma FewWeight(a: Expr)
    ensures WeightAll([a]) == Weight(a)
  {
    hide Weight;
    assert [a][1..] == [];
  }

  lemma TripleWeight(a: Expr, b: Expr, c: Expr)
    ensures WeightAll([a, b, c]) == Weight(a) + Weight(b) + Weight(c)
  {
    hide Weight;
    PairWeight(a, b);
    WeightAppend([a, b], [c]);
    assert [a, b, c] == [a, b] + [c];
  }

  lemma RewrittenShrinks(e: Expr)
    ensures hide *; Rewritten(e).Some? ==> Weight(Rewritten(e).value) < Weight(e)
  {
    hide Weight, Desugar.Match, Desugar.RangeSelection;
    match e.kind
    case PatternMatch(p, arms) => MatchShrinks(p, arms, e.ty, e.note);
    case SelectIndex(l, i) => RangeSelectionShrinks(l, i, e.ty, e.note);
    case _ =>
  }

  /** The error of an expression, if it has one: its own error comes first, then those of its parts, the last part first. */
  function ErrorOf(e: Expr): Option<GenError>
    decreases Weight(e), 0, 0
  {
    hide *;
    RewrittenShrinks(e);
    InnerShrinks(e);
    if OwnError(e).Some? then OwnError(e)
    else if Rewritten(e).Some? then ErrorOf(Rewritten(e).value)
    else ErrorAmong(Inner(e))
  }

  function ErrorAmong(es: seq<Expr>): Option<GenError>
    decreases WeightAll(es), 1, |es|
  {
    hide *;
    if es == [] then None else
    WeightLast(es);
    First(ErrorOf(es[|es| - 1]), ErrorAmong(es[..|es| - 1]))
  }

  // ---------- the generator fails exactly with this error ----------

  lemma PlanFails(e: Expr, n: nat)
    ensures hide *; OwnError(e) == if PlanOf(e, n).Bad? then Some(PlanOf(e, n).err) else None
  {
    hide Weight, WitOf, Desugar.Match, Desugar.UpToEnd, Plainly, Reverse, ComprehensionChunks, ReduceChunks, CondChunks, LeafPlan, LeafError,
         CallPlan, CallError;
    match e.kind {
      case Atom(leaf) => LeafFails(leaf, e.ty);
      case Call(ct, args) => CallFails(ct, args, e.ty);
      case _ =>
    }
  }

  lemma LeafFails(leaf: Leaf, ty: InferredType)
    ensures hide *; LeafError(leaf, ty) == if LeafPlan(leaf, ty).Bad? then Some(LeafPlan(leaf, ty).err) else None
  {
    hide WitOf, NumberAs, Plainly;
  }

  lemma CallFails(ct: CallType, args: seq<Expr>, ty: InferredType)
    ensures hide *; CallError(ct, ty) == if CallPlan(ct, args, ty).Bad? then Some(CallPlan(ct, args, ty).err) else None
  {
    hide WitOf, Plainly, Reverse;
  }

  function ChunkExprs(cs: seq<Chunk>): seq<Expr> {
    seq(|cs|, i requires 0 <= i < |cs| => cs[i].e)
  }

  lemma PlainExprs(es: seq<Expr>)
    ensures ChunkExprs(Plainly(es)) == es
  {
  }

  lemma PlanParts(e: Expr, n: nat)
    ensures hide *; PlanOf(e, n).Parts? ==> Rewritten(e) == None && ChunkExprs(PlanOf(e, n).chunks) == Inner(e)
    ensures PlanOf(e, n).Rewrite? && !e.kind.Binary? ==> Rewritten(e) == Some(PlanOf(e, n).to)
  {
    hide Weight, WitOf, Desugar.Match, Desugar.UpToEnd, Plainly, Reverse, LeafPlan, CallPlan;
    PlainExprs(Inner(e));
    match e.kind {
      case Atom(leaf) => PlainExprs([]);
      case _ =>
    }
  }

  function ErrorIn(g: Generated): Option<GenError> { if g.Err? then Some(g.error) else None }

  lemma ChunkWeightLast(cs: seq<Chunk>)
    requires hide *; cs != []
    ensures ChunksWeight(cs) >= ChunksWeight(cs[..|cs| - 1]) + Weight(cs[|cs| - 1].e)
  {
    hide Weight;
  }

  lemma {:induction false} ChunksFail(cs: seq<Chunk>, n: nat)
    ensures hide *; ErrorIn(GenChunks(cs, n)) == ErrorAmong(ChunkExprs(cs))
    decreases ChunksWeight(cs), 1, |cs|
  {
    hide Gen, GenChunks, ErrorOf, ErrorAmong, Weight;
    if cs == [] {
      NoneFail(n);
    } else {
      var last, front := cs[|cs| - 1], cs[..|cs| - 1];
      LastChunkCode(cs, n);
      ChunkWeightLast(cs);
      assert ChunkExprs(cs)[..|cs| - 1] == ChunkExprs(front);
      LastError(ChunkExprs(cs));
      FailsExactly(last.e, n);
      if Gen(last.e, n).Ok? {
        ChunksFail(front, Gen(last.e, n).value.last);
      }
    }
  }

  lemma NoneFail(n: nat)
    ensures hide *; GenChunks([], n).Ok? && ErrorAmong([]) == None
  {
  }

  lemma LastError(es: seq<Expr>)
    requires hide *; es != []
    ensures ErrorAmong(es) == First(ErrorOf(es[|es| - 1]), ErrorAmong(es[..|es| - 1]))
  {
    hide ErrorOf;
  }

  lemma ErrorUnfolds(e: Expr)
    ensures hide *;
            ErrorOf(e) == if OwnError(e).Some? then OwnError(e)
                          else if Rewritten(e).Some? then ErrorOf(Rewritten(e).value)
                          else ErrorAmong(Inner(e))
  {
    hide ErrorAmong, OwnError, Rewritten, Inner;
  }

  /** The conditional for a logical operator has the errors of the operands, those of the right one first. */
  lemma AndFails(l: Expr, r: Expr)
    ensures hide *; ErrorOf(AndAsCond(l, r)) == First(ErrorOf(r), ErrorOf(l))
  {
    hide ErrorOf, ErrorAmong, MkEq, MkBool;
    var c, d, no := MkEq(l, MkBool(true)), MkEq(r, MkBool(true)), MkBool(false);
    OnlyParts(AndAsCond(l, r), [c, d, no]);
    ThreeErrors(c, d, no);
    TrueFits(false);
    EqualityFails(l);
    EqualityFails(r);
  }

  lemma OrFails(l: Expr, r: Expr)
    ensures hide *; ErrorOf(OrAsCond(l, r)) == First(ErrorOf(r), ErrorOf(l))
  {
    hide ErrorOf, ErrorAmong, MkEq, MkBool;
    var c, d, yes := MkEq(l, MkBool(true)), MkEq(r, MkBool(true)), MkBool(true);
    OnlyParts(OrAsCond(l, r), [c, yes, d]);
    ThreeErrors(c, yes, d);
    TrueFits(true);
    EqualityFails(l);
    EqualityFails(r);
  }

  lemma OnlyParts(e: Expr, parts: seq<Expr>)
    requires hide *; OwnError(e) == None && Rewritten(e) == None && Inner(e) == parts
    ensures ErrorOf(e) == ErrorAmong(parts)
  {
    hide *;
    ErrorUnfolds(e);
  }

  lemma TrueFits(b: bool)
    ensures hide *; ErrorOf(MkBool(b)) == None
  {
    hide ErrorOf, ErrorAmong;
    OnlyParts(MkBool(b), []);
    NoneFail(0);
  }

  lemma EqualityFails(e: Expr)
    ensures hide *; ErrorOf(MkEq(e, MkBool(true))) == ErrorOf(e)
  {
    hide ErrorOf, ErrorAmong;
    OnlyParts(MkEq(e, MkBool(true)), [MkBool(true), e]);
    TrueFits(true);
    TwoErrors(MkBool(true), e);
  }

  lemma TwoErrors(a: Expr, b: Expr)
    ensures hide *; ErrorAmong([a, b]) == First(ErrorOf(b), ErrorOf(a))
  {
    hide ErrorOf, ErrorAmong;
    LastError([a, b]);
    assert [a, b][..1] == [a];
    LastError([a]);
    NoneFail(0);
    assert [a][..0] == [];
  }

  lemma ThreeErrors(a: Expr, b: Expr, c: Expr)
    ensures hide *; ErrorAmong([a, b, c]) == First(ErrorOf(c), First(ErrorOf(b), ErrorOf(a)))
  {
    hide ErrorOf, ErrorAmong;
    LastError([a, b, c]);
    assert [a, b, c][..2] == [a, b];
    TwoErrors(a, b);
  }

  /** Code is generated exactly for expressions without an error; else this error is reported. */
  lemma {:induction false} FailsExactly(e: Expr, n: nat)
    ensures hide *; ErrorIn(Gen(e, n)) == ErrorOf(e)
    decreases Weight(e), 0, 0
  {
    hide Gen, GenChunks, ErrorOf, ErrorAmong, Weight, PlanOf, OwnError, Rewritten, Inner, AndAsCond, OrAsCond;
    GenUnfold(e, n);
    ErrorUnfolds(e);
    PlanFails(e, n);
    PlanParts(e, n);
    PlanShrinks(e, n);
    match PlanOf(e, n)
    case Bad(_) =>
    case Parts(chunks, _, labels) => ChunksFail(chunks, n + labels);
    case Rewrite(to_) =>
      FailsExactly(to_, n);
      if e.kind.Binary? {
        LogicalPlan(e, n);
        AndFails(e.kind.lhs, e.kind.rhs);
        OrFails(e.kind.lhs, e.kind.rhs);
        TwoErrors(e.kind.lhs, e.kind.rhs);
      }
  }

  lemma LogicalPlan(e: Expr, n: nat)
    requires hide *; e.kind.Binary? && PlanOf(e, n).Rewrite?
    ensures PlanOf(e, n).to in {AndAsCond(e.kind.lhs, e.kind.rhs), OrAsCond(e.kind.lhs, e.kind.rhs)}
    ensures Inner(e) == [e.kind.lhs, e.kind.rhs] && Rewritten(e) == None
  {
    hide AndAsCond, OrAsCond, WitOf;
  }
}
