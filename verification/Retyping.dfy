/** Scripts whose types have changed: the code has the same instructions at the same positions, up to the types they carry. */
module Retyping {
  import opened Syntax
  import opened ByteCode
  import Desugar

  // ---------- what is left of types and expressions ----------

  /** What matching looks at in a type: its variants, options, results, tuples, lists and records, and what is unknown. */
  function BareType(t: InferredType): InferredType
    decreases t
  {
    hide *;
    Plain(match t.inner
          case TVariant(cases) => TVariant(BareCases(cases))
          case TOption(inner) => TOption(BareType(inner))
          case TResult(ok, error) => TResult(BareMaybe(ok), BareMaybe(error))
          case TTuple(items) => TTuple(BareTypes(items))
          case TList(elem) => TList(BareType(elem))
          case TRecord(fields) => TRecord(BareFieldTypes(fields))
          case TUnknown => TUnknown
          case _ => TBool)
  }

  function BareMaybe(t: Option<InferredType>): Option<InferredType>
    decreases t
  {
    hide *;
    if t.Some? then Some(BareType(t.value)) else None
  }

  function BareTypes(ts: seq<InferredType>): (r: seq<InferredType>)
    ensures hide *; |r| == |ts| && forall i :: 0 <= i < |ts| ==> r[i] == BareType(ts[i])
    decreases ts
  {
    if ts == [] then [] else [BareType(ts[0])] + BareTypes(ts[1..])
  }

  function BareFieldTypes(fs: seq<Field<InferredType>>): (r: seq<Field<InferredType>>)
    ensures hide *; |r| == |fs|
    decreases fs
  {
    if fs == [] then [] else [Field(fs[0].name, BareType(fs[0].of))] + BareFieldTypes(fs[1..])
  }

  function BareCases(cs: seq<Field<Option<InferredType>>>): (r: seq<Field<Option<InferredType>>>)
    ensures hide *; |r| == |cs|
    decreases cs
  {
    if cs == [] then [] else [Field(cs[0].name, BareMaybe(cs[0].of))] + BareCases(cs[1..])
  }

  const RANGE: InferredType := Plain(TRange(UNKNOWN, None))

  /** The expression without types, spans and annotations, but for what a scrutinee is matched as and whether an index is a
      range. */
  function Bare(e: Expr): Expr
    decreases e
  {
    hide *;
    Mk(match e.kind
       case Atom(leaf) => e.kind
       case Unary(op, a) => Unary(op, Bare(a))
       case Binary(op, l, r) => Binary(op, Bare(l), Bare(r))
       case Record(fs) => Record(BareFields(fs))
       case ListOf(op, es) => ListOf(op, BareAll(es))
       case Block(es) => Block(BareAll(es))
       case Let(v, b) => Let(v, Bare(b))
       case Cond(c, l, r) => Cond(Bare(c), Bare(l), Bare(r))
       case PatternMatch(p, arms) => PatternMatch(Expr(Bare(p).kind, BareType(p.ty), NO_NOTE), BareArms(arms))
       case SelectIndex(l, i) => SelectIndex(Bare(l), Expr(Bare(i).kind, if i.ty.inner.TRange? then RANGE else UNKNOWN, NO_NOTE))
       case Call(ct, args) => Call(BareCall(ct), BareAll(args))
       case Comprehension(v, i, b) => Comprehension(v, Bare(i), Bare(b))
       case Reduce(rv, v, i, s, b) => Reduce(rv, v, Bare(i), Bare(s), Bare(b))
       case Range(f, t, inclusive) => Range(Bare(f), BareOption(t), inclusive)
       case InvokeMethodLazy(r, m, args) => InvokeMethodLazy(Bare(r), m, BareAll(args)))
  }

  function BareOption(e: Option<Expr>): Option<Expr>
    decreases e
  {
    hide *;
    if e.Some? then Some(Bare(e.value)) else None
  }

  function BareAll(es: seq<Expr>): (r: seq<Expr>)
    ensures hide *; |r| == |es| && forall i :: 0 <= i < |es| ==> r[i] == Bare(es[i])
    decreases es
  {
    if es == [] then [] else [Bare(es[0])] + BareAll(es[1..])
  }

  function BareFields(fs: seq<Field<Expr>>): (r: seq<Field<Expr>>)
    ensures hide *; |r| == |fs| && forall i :: 0 <= i < |fs| ==> r[i] == Field(fs[i].name, Bare(fs[i].of))
    decreases fs
  {
    if fs == [] then [] else [Field(fs[0].name, Bare(fs[0].of))] + BareFields(fs[1..])
  }

  function BareReceiver(r: Receiver): Receiver {
    match r
    case WorkerReceiver(v, _) => WorkerReceiver(v, None)
    case ResourceReceiver(v, _, _) => ResourceReceiver(v, None, "")
    case NoInstance => NoInstance
  }

  function BareCall(ct: CallType): CallType
    decreases ct
  {
    hide *;
    match ct
    case Function(name, receiver, component) => Function(name, BareReceiver(receiver), component)
    case WorkerCreation(name, component) => WorkerCreation(BareOption(name), component)
    case ResourceCreation(name, owner, component) => ResourceCreation(name, BareReceiver(owner), component)
    case _ => ct
  }

  function BareArms(arms: seq<MatchArm>): (r: seq<MatchArm>)
    ensures hide *; |r| == |arms|
    decreases arms
  {
    if arms == [] then [] else [BareArm(arms[0])] + BareArms(arms[1..])
  }

  function BareArm(arm: MatchArm): MatchArm
    decreases arm
  {
    hide *;
    MatchArm(BarePattern(arm.pattern), Bare(arm.resolution))
  }

  function BarePattern(p: ArmPattern): ArmPattern
    decreases p
  {
    hide *;
    match p
    case WildCard => WildCard
    case As(name, q) => As(name, BarePattern(q))
    case Constructor(name, ps) => Constructor(name, BarePatterns(ps))
    case TupleConstructor(ps) => TupleConstructor(BarePatterns(ps))
    case ListConstructor(ps) => ListConstructor(BarePatterns(ps))
    case RecordConstructor(fps) => RecordConstructor(BareFieldPatterns(fps))
    case LiteralPattern(lit) => LiteralPattern(Bare(lit))
  }

  function BarePatterns(ps: seq<ArmPattern>): (r: seq<ArmPattern>)
    ensures hide *; |r| == |ps|
    decreases ps
  {
    if ps == [] then [] else [BarePattern(ps[0])] + BarePatterns(ps[1..])
  }

  function BareFieldPatterns(fps: seq<Field<ArmPattern>>): (r: seq<Field<ArmPattern>>)
    ensures hide *; |r| == |fps|
    decreases fps
  {
    if fps == [] then [] else [Field(fps[0].name, BarePattern(fps[0].of))] + BareFieldPatterns(fps[1..])
  }

  // ---------- which expressions are the same ----------

  predicate SameOption(a: Option<Expr>, b: Option<Expr>) {
    a.Some? == b.Some? && (a.Some? ==> Bare(a.value) == Bare(b.value))
  }

  predicate SameReceiver(r: Receiver, q: Receiver) {
    match (r, q)
    case (NoInstance, NoInstance) => true
    case (WorkerReceiver(v, _), WorkerReceiver(x, _)) => v == x
    case (ResourceReceiver(v, _, _), ResourceReceiver(x, _, _)) => v == x
    case _ => false
  }

  predicate SameCallee(c: CallType, d: CallType) {
    match (c, d)
    case (Function(name, r, x), Function(other, q, y)) => name == other && x == y && SameReceiver(r, q)
    case (WorkerCreation(name, x), WorkerCreation(other, y)) => x == y && SameOption(name, other)
    case (ResourceCreation(name, r, x), ResourceCreation(other, q, y)) => name == other && x == y && SameReceiver(r, q)
    case (VariantConstructor(name), VariantConstructor(other)) => name == other
    case (EnumConstructor(name), EnumConstructor(other)) => name == other
    case _ => false
  }

  predicate SameExprs(es: seq<Expr>, fs: seq<Expr>) {
    hide *;
    |es| == |fs| && forall i :: 0 <= i < |es| ==> Bare(es[i]) == Bare(fs[i])
  }

  predicate SameNamed(fs: seq<Field<Expr>>, gs: seq<Field<Expr>>) {
    hide *;
    |fs| == |gs| && forall i :: 0 <= i < |fs| ==> fs[i].name == gs[i].name && Bare(fs[i].of) == Bare(gs[i].of)
  }

  lemma SameExprsExactly(es: seq<Expr>, fs: seq<Expr>)
    ensures hide *; BareAll(es) == BareAll(fs) <==> SameExprs(es, fs)
  {
    hide Bare, BareAll;
    if BareAll(es) == BareAll(fs) {
      forall i | 0 <= i < |es| ensures Bare(es[i]) == Bare(fs[i]) {
        assert BareAll(es)[i] == BareAll(fs)[i];
      }
    }
  }

  lemma SameNamedExactly(fs: seq<Field<Expr>>, gs: seq<Field<Expr>>)
    ensures hide *; BareFields(fs) == BareFields(gs) <==> SameNamed(fs, gs)
  {
    hide Bare, BareFields;
    if BareFields(fs) == BareFields(gs) {
      forall i | 0 <= i < |fs| ensures fs[i].name == gs[i].name && Bare(fs[i].of) == Bare(gs[i].of) {
        assert BareFields(fs)[i] == BareFields(gs)[i];
      }
    }
  }

  lemma SameCalleeExactly(c: CallType, d: CallType)
    ensures hide *; BareCall(c) == BareCall(d) <==> SameCallee(c, d)
  {
    hide Bare;
  }

  /** Expressions of one kind with the same names whose parts differ in types only differ in types only, whatever types, spans and
      annotations they have; but an index has to be a range in both or in none, and a scrutinee is matched as the same. */
  lemma {:induction false} PartsForgotten(t: InferredType, n: Note, u: InferredType, o: Note, a: Expr, b: Expr, c: Expr,
                                          d: Expr, e: Expr, f: Expr, op: UnaryOp, q: BinaryOp, v: VariableId)
    requires hide *; Bare(a) == Bare(d) && Bare(b) == Bare(e) && Bare(c) == Bare(f)
    ensures Bare(Expr(Unary(op, a), t, n)) == Bare(Expr(Unary(op, d), u, o))
    ensures Bare(Expr(Binary(q, a, b), t, n)) == Bare(Expr(Binary(q, d, e), u, o))
    ensures Bare(Expr(Let(v, a), t, n)) == Bare(Expr(Let(v, d), u, o))
    ensures Bare(Expr(Cond(a, b, c), t, n)) == Bare(Expr(Cond(d, e, f), u, o))
    ensures (b.ty.inner.TRange? <==> e.ty.inner.TRange?) ==>
      Bare(Expr(SelectIndex(a, b), t, n)) == Bare(Expr(SelectIndex(d, e), u, o))
  {
    hide BareAll, BareFields, BareCall, BareArms, BareType, BareOption;
  }

  lemma {:induction false} LoopsForgotten(t: InferredType, n: Note, u: InferredType, o: Note, a: Expr, b: Expr, c: Expr,
                                          d: Expr, e: Expr, f: Expr, v: VariableId, x: VariableId, inclusive: bool,
                                          arms: seq<MatchArm>, others: seq<MatchArm>)
    requires hide *; Bare(a) == Bare(d) && Bare(b) == Bare(e) && Bare(c) == Bare(f)
    ensures Bare(Expr(Comprehension(v, a, b), t, n)) == Bare(Expr(Comprehension(v, d, e), u, o))
    ensures Bare(Expr(Reduce(v, x, a, b, c), t, n)) == Bare(Expr(Reduce(v, x, d, e, f), u, o))
    ensures Bare(Expr(Range(a, Some(b), inclusive), t, n)) == Bare(Expr(Range(d, Some(e), inclusive), u, o))
    ensures Bare(Expr(Range(a, None, inclusive), t, n)) == Bare(Expr(Range(d, None, inclusive), u, o))
    ensures BareType(a.ty) == BareType(d.ty) && BareArms(arms) == BareArms(others) ==>
      Bare(Expr(PatternMatch(a, arms), t, n)) == Bare(Expr(PatternMatch(d, others), u, o))
  {
    hide BareAll, BareFields, BareCall, BareArms, BareType;
  }

  lemma {:induction false} LeavesForgotten(t: InferredType, n: Note, u: InferredType, o: Note, leaf: Leaf)
    ensures hide *; Bare(Expr(Atom(leaf), t, n)) == Bare(Expr(Atom(leaf), u, o))
  {
    hide BareAll, BareFields, BareCall, BareArms, BareType, BareOption;
  }

  lemma {:induction false} ListsForgotten(t: InferredType, n: Note, u: InferredType, o: Note, es: seq<Expr>, fs: seq<Expr>,
                                          a: Expr, b: Expr, op: ListOp, c: CallType, d: CallType, name: string)
    requires hide *; SameExprs(es, fs) && Bare(a) == Bare(b) && SameCallee(c, d)
    ensures Bare(Expr(ListOf(op, es), t, n)) == Bare(Expr(ListOf(op, fs), u, o))
    ensures Bare(Expr(Block(es), t, n)) == Bare(Expr(Block(fs), u, o))
    ensures Bare(Expr(Call(c, es), t, n)) == Bare(Expr(Call(d, fs), u, o))
    ensures Bare(Expr(InvokeMethodLazy(a, name, es), t, n)) == Bare(Expr(InvokeMethodLazy(b, name, fs), u, o))
  {
    hide BareAll, BareFields, BareCall, BareArms, BareType, BareOption, SameExprs, SameCallee;
    SameExprsExactly(es, fs);
    SameCalleeExactly(c, d);
  }

  lemma {:induction false} RecordsForgotten(t: InferredType, n: Note, u: InferredType, o: Note, fs: seq<Field<Expr>>,
                                            gs: seq<Field<Expr>>)
    requires hide *; SameNamed(fs, gs)
    ensures Bare(Expr(Record(fs), t, n)) == Bare(Expr(Record(gs), u, o))
  {
    hide BareAll, BareFields, BareCall, BareArms, BareType, BareOption, SameNamed;
    SameNamedExactly(fs, gs);
  }

  // ---------- what is left of code ----------

  const ZERO: ValueAndType := VT(VNum(F64, 0.0), WNum(F64))

  /** The instruction without the types and the numbers it carries. */
  function BareIR(ir: IR): IR {
    match ir
    case PushLit(vt) => if vt.value.VNum? then PushLit(ZERO) else ir
    case PushFlag(_) => PushFlag(ZERO)
    case CreateAndPushRecord(_) => CreateAndPushRecord(WBool)
    case PushList(_, n) => PushList(WBool, n)
    case PushTuple(_, n) => PushTuple(WBool, n)
    case PushSome(_) => PushSome(WBool)
    case PushNone(_) => PushNone(None)
    case PushOkResult(_) => PushOkResult(WBool)
    case PushErrResult(_) => PushErrResult(WBool)
    case MathIR(op, _) => MathIR(op, WBool)
    case InvokeFunction(component, receiver, n, _) => InvokeFunction(component, receiver, n, None)
    case PushVariant(name, _) => PushVariant(name, WBool)
    case PushEnum(name, _) => PushEnum(name, WBool)
    case CreateSink(_) => CreateSink(WBool)
    case _ => ir
  }

  function BareCode(code: seq<IR>): (r: seq<IR>)
    ensures hide *; |r| == |code| && forall i :: 0 <= i < |code| ==> r[i] == BareIR(code[i])
  {
    seq(|code|, i requires 0 <= i < |code| => BareIR(code[i]))
  }

  lemma BareConcat(a: seq<IR>, b: seq<IR>)
    ensures BareCode(a + b) == BareCode(a) + BareCode(b)
  {
    hide BareIR;
  }

  /** Instructions are the same but for types and numbers. */
  predicate SameInstruction(a: IR, b: IR) {
    match (a, b)
    case (PushLit(x), PushLit(y)) => x == y || (x.value.VNum? && y.value.VNum?)
    case (PushFlag(_), PushFlag(_)) => true
    case (CreateAndPushRecord(_), CreateAndPushRecord(_)) => true
    case (PushList(_, n), PushList(_, m)) => n == m
    case (PushTuple(_, n), PushTuple(_, m)) => n == m
    case (PushSome(_), PushSome(_)) => true
    case (PushNone(_), PushNone(_)) => true
    case (PushOkResult(_), PushOkResult(_)) => true
    case (PushErrResult(_), PushErrResult(_)) => true
    case (MathIR(op, _), MathIR(q, _)) => op == q
    case (InvokeFunction(c, r, n, _), InvokeFunction(d, q, m, _)) => c == d && r == q && n == m
    case (PushVariant(name, _), PushVariant(other, _)) => name == other
    case (PushEnum(name, _), PushEnum(other, _)) => name == other
    case (CreateSink(_), CreateSink(_)) => true
    case _ => a == b
  }

  lemma SameInstructionExactly(a: IR, b: IR)
    ensures BareIR(a) == BareIR(b) <==> SameInstruction(a, b)
  {
  }

  lemma SameCodeExactly(a: seq<IR>, b: seq<IR>)
    ensures BareCode(a) == BareCode(b) <==> |a| == |b| && forall i :: 0 <= i < |a| ==> SameInstruction(a[i], b[i])
  {
    hide BareIR, BareCode, SameInstruction;
    if BareCode(a) == BareCode(b) {
      forall i | 0 <= i < |a| ensures SameInstruction(a[i], b[i]) {
        assert BareCode(a)[i] == BareCode(b)[i];
        SameInstructionExactly(a[i], b[i]);
      }
    }
    if |a| == |b| && forall i :: 0 <= i < |a| ==> SameInstruction(a[i], b[i]) {
      forall i | 0 <= i < |a| ensures BareCode(a)[i] == BareCode(b)[i] {
        SameInstructionExactly(a[i], b[i]);
      }
    }
  }

  // ---------- matches ----------

  function BareBranch(b: Desugar.Branch): Desugar.Branch { Desugar.Branch(Bare(b.condition), Bare(b.body)) }

  function BareBranches(bs: seq<Desugar.Branch>): (r: seq<Desugar.Branch>)
    ensures hide *; |r| == |bs|
  {
    if bs == [] then [] else [BareBranch(bs[0])] + BareBranches(bs[1..])
  }

  ghost predicate SameBranch(a: Option<Desugar.Branch>, b: Option<Desugar.Branch>) {
    hide *;
    (a.Some? <==> b.Some?) && (a.Some? ==> BareBranch(a.value) == BareBranch(b.value))
  }

  lemma SameCase(cs: seq<Field<Option<InferredType>>>, ds: seq<Field<Option<InferredType>>>, name: string)
    requires hide *; BareCases(cs) == BareCases(ds)
    ensures var c, d := Desugar.FindCase(cs, name), Desugar.FindCase(ds, name);
            (c.Some? <==> d.Some?) && (c.Some? ==> BareMaybe(c.value) == BareMaybe(d.value))
  {
    hide BareType;
    if cs != [] {
      assert BareCases(cs)[0] == BareCases(ds)[0] && BareCases(cs)[1..] == BareCases(ds)[1..];
      assert BareCases(cs)[1..] == BareCases(cs[1..]) && BareCases(ds)[1..] == BareCases(ds[1..]);
      SameCase(cs[1..], ds[1..], name);
    }
  }

  lemma SameField(fs: seq<Field<InferredType>>, gs: seq<Field<InferredType>>, name: string)
    requires BareFieldTypes(fs) == BareFieldTypes(gs)
    ensures BareType(Desugar.FindField(fs, name)) == BareType(Desugar.FindField(gs, name))
  {
    hide BareType;
    if fs != [] {
      assert BareFieldTypes(fs)[0] == BareFieldTypes(gs)[0] && BareFieldTypes(fs)[1..] == BareFieldTypes(gs)[1..];
      assert BareFieldTypes(fs)[1..] == BareFieldTypes(fs[1..]) && BareFieldTypes(gs)[1..] == BareFieldTypes(gs[1..]);
      SameField(fs[1..], gs[1..], name);
    }
  }

  lemma BareBlock(es: seq<Expr>, last: Expr)
    ensures Bare(MkBlock(es + [last])) == Mk(Block(BareAll(es) + [Bare(last)]))
  {
    hide Bare, BareAll;
    BareOfBlock(es + [last]);
    assert BareAll(es + [last]) == BareAll(es) + [Bare(last)];
  }

  lemma BareOfBlock(es: seq<Expr>)
    ensures Bare(MkBlock(es)) == Mk(Block(BareAll(es)))
  {
    hide BareAll, BareArms, BareCall, BareType;
  }

  lemma BareTwo(a: Expr, b: Expr)
    ensures Bare(MkBlock([a, b])) == Mk(Block([Bare(a), Bare(b)]))
  {
    hide Bare, MkBlock;
    BareBlock([a], b);
    OneBare(a, b);
    assert [a] + [b] == [a, b] && [Bare(a)] + [Bare(b)] == [Bare(a), Bare(b)];
  }

  /** What the rewriting builds, in terms of its parts. */
  lemma {:induction false} BareParts(a: Expr, b: Expr, name: string, v: VariableId, ty: InferredType)
    ensures Bare(MkAnd(a, b)) == Mk(Binary(And, Bare(a), Bare(b)))
    ensures Bare(MkEq(a, b)) == Mk(Binary(Compare(EqualTo), Bare(a), Bare(b)))
    ensures Bare(MkUnwrap(a)) == Mk(Unary(Unwrap, Bare(a)))
    ensures Bare(Desugar.TagTest(a, name)) == Mk(Binary(Compare(EqualTo), Mk(Unary(GetTag, Bare(a))), Mk(Atom(Literal(name)))))
    ensures Bare(Desugar.FieldAt(a, name)) == Mk(Unary(SelectField(name), Bare(a)))
    ensures Bare(Expr(Let(v, a), ty, NO_NOTE)) == Mk(Let(v, Bare(a)))
  {
    hide BareCall, BareArm;
  }

  lemma BareItem(a: Expr, i: nat)
    ensures Bare(Desugar.ItemAt(a, i)) == Mk(SelectIndex(Bare(a), Mk(Atom(Number(i as real)))))
  {
    hide BareAll, BareArms, BareCall, BareFields;
    var index := Expr(Atom(Number(i as real)), Plain(TNum(U64)), NO_NOTE);
    assert Bare(index) == Mk(Atom(Number(i as real)));
  }

  ghost predicate SameTag(a: Option<Expr>, b: Option<Expr>) { BareOption(a) == BareOption(b) }

  lemma {:induction false} SameUnder(a: Option<Expr>, b: Option<Expr>, c: Expr, d: Expr)
    requires SameTag(a, b) && Bare(c) == Bare(d)
    ensures Bare(Desugar.Under(a, c)) == Bare(Desugar.Under(b, d)) && Bare(Desugar.OrTrue(a)) == Bare(Desugar.OrTrue(b))
  {
    hide Bare, MkAnd;
    if a.Some? {
      BareParts(a.value, c, "", Global(""), UNKNOWN);
      BareParts(b.value, d, "", Global(""), UNKNOWN);
    }
  }

  lemma {:induction false} SameConditions(p: ArmPattern, q: ArmPattern, r: Expr, s: Expr, x: Expr, y: Expr, a: Option<Expr>,
                                          b: Option<Expr>, t: InferredType, u: InferredType)
    requires BarePattern(p) == BarePattern(q) && Bare(r) == Bare(s) && Bare(x) == Bare(y) && SameTag(a, b)
    requires BareType(t) == BareType(u)
    ensures SameBranch(Desugar.Conditions(p, r, x, a, t), Desugar.Conditions(q, s, y, b, u))
    decreases p
  {
    hide Bare, BareType, SameBranch, Desugar.Combined, Desugar.FieldBranches, Desugar.ConstructorBranch,
         Desugar.LiteralBranch, BarePattern, BareBranch;
    PatternsAlike(p, q);
    match p {
      case LiteralPattern(lit) => SameLiteral(lit, q.literal, r, s, x, y, a, b);
      case Constructor(name, ps) => SameConstructor(name, ps, q.patterns, r, s, x, y, a, b, t, u);
      case TupleConstructor(ps) => SameConstructor("tuple", ps, q.patterns, r, s, x, y, a, b, t, u);
      case ListConstructor(ps) => SameConstructor("list", ps, q.patterns, r, s, x, y, a, b, t, u);
      case RecordConstructor(fps) =>
        TypesAlike(t, u);
        if t.inner.TRecord? {
          SameFieldBranches(fps, q.fieldPatterns, x, y, t.inner.fields, u.inner.fields);
          SameCombined(Desugar.FieldBranches(fps, x, t.inner.fields), Desugar.FieldBranches(q.fieldPatterns, y, u.inner.fields),
                       r, s, a, b);
        } else {
          NoBranch();
        }
      case As(name, inner) =>
        var l, m := Expr(Let(Global(name), x), x.ty, NO_NOTE), Expr(Let(Global(name), y), y.ty, NO_NOTE);
        BareParts(x, x, "", Global(name), x.ty);
        BareParts(y, y, "", Global(name), y.ty);
        BareTwo(l, r);
        BareTwo(m, s);
        SameConditions(inner, q.inner, MkBlock([l, r]), MkBlock([m, s]), x, y, a, b, t, u);
      case WildCard =>
        SameUnder(a, b, r, s);
        BranchSame(Desugar.Branch(Desugar.OrTrue(a), r), Desugar.Branch(Desugar.OrTrue(b), s));
    }
  }

  lemma NoBranch()
    ensures SameBranch(None, None)
  {
  }

  lemma BranchSame(a: Desugar.Branch, b: Desugar.Branch)
    requires Bare(a.condition) == Bare(b.condition) && Bare(a.body) == Bare(b.body)
    ensures SameBranch(Some(a), Some(b)) && BareBranch(a) == BareBranch(b)
  {
    hide Bare;
  }

  lemma {:induction false} PatternsAlike(p: ArmPattern, q: ArmPattern)
    requires hide *; BarePattern(p) == BarePattern(q)
    ensures p.LiteralPattern? <==> q.LiteralPattern?
    ensures p.Constructor? <==> q.Constructor?
    ensures p.TupleConstructor? <==> q.TupleConstructor?
    ensures p.ListConstructor? <==> q.ListConstructor?
    ensures p.RecordConstructor? <==> q.RecordConstructor?
    ensures p.As? <==> q.As?
    ensures p.LiteralPattern? ==> Bare(p.literal) == Bare(q.literal)
    ensures p.Constructor? ==> p.name == q.name
    ensures p.Constructor? || p.TupleConstructor? || p.ListConstructor? ==> BarePatterns(p.patterns) == BarePatterns(q.patterns)
    ensures p.RecordConstructor? ==> BareFieldPatterns(p.fieldPatterns) == BareFieldPatterns(q.fieldPatterns)
    ensures p.As? ==> p.name == q.name && BarePattern(p.inner) == BarePattern(q.inner)
  {
    hide Bare, BarePatterns, BareFieldPatterns;
  }

  lemma {:induction false} BareInner(t: InferredType)
    ensures hide *; BareType(t).inner.TRecord? <==> t.inner.TRecord?
    ensures BareType(t).inner.TVariant? <==> t.inner.TVariant?
    ensures BareType(t).inner.TOption? <==> t.inner.TOption?
    ensures BareType(t).inner.TResult? <==> t.inner.TResult?
    ensures BareType(t).inner.TTuple? <==> t.inner.TTuple?
    ensures BareType(t).inner.TList? <==> t.inner.TList?
    ensures BareType(t).inner.TUnknown? <==> t.inner.TUnknown?
    ensures t.inner.TRecord? ==> BareType(t).inner.fields == BareFieldTypes(t.inner.fields)
    ensures t.inner.TVariant? ==> BareType(t).inner.variants == BareCases(t.inner.variants)
    ensures t.inner.TOption? ==> BareType(t).inner.some == BareType(t.inner.some)
    ensures t.inner.TResult? ==> BareType(t).inner.ok == BareMaybe(t.inner.ok) && BareType(t).inner.error == BareMaybe(t.inner.error)
    ensures t.inner.TTuple? ==> BareType(t).inner.items == BareTypes(t.inner.items)
    ensures t.inner.TList? ==> BareType(t).inner.elem == BareType(t.inner.elem)
  {
    hide BareFieldTypes, BareCases, BareTypes, BareMaybe;
  }

  lemma {:induction false} TypesAlike(t: InferredType, u: InferredType)
    requires hide *; BareType(t) == BareType(u)
    ensures t.inner.TRecord? <==> u.inner.TRecord?
    ensures t.inner.TVariant? <==> u.inner.TVariant?
    ensures t.inner.TOption? <==> u.inner.TOption?
    ensures t.inner.TResult? <==> u.inner.TResult?
    ensures t.inner.TTuple? <==> u.inner.TTuple?
    ensures t.inner.TList? <==> u.inner.TList?
    ensures t.inner.TUnknown? <==> u.inner.TUnknown?
    ensures t.inner.TRecord? ==> BareFieldTypes(t.inner.fields) == BareFieldTypes(u.inner.fields)
    ensures t.inner.TVariant? ==> BareCases(t.inner.variants) == BareCases(u.inner.variants)
    ensures t.inner.TOption? ==> BareType(t.inner.some) == BareType(u.inner.some)
    ensures t.inner.TResult? ==> BareMaybe(t.inner.ok) == BareMaybe(u.inner.ok) && BareMaybe(t.inner.error) == BareMaybe(u.inner.error)
    ensures t.inner.TTuple? ==> BareTypes(t.inner.items) == BareTypes(u.inner.items)
    ensures t.inner.TList? ==> BareType(t.inner.elem) == BareType(u.inner.elem)
  {
    hide BareType, BareFieldTypes, BareCases, BareTypes, BareMaybe;
    BareInner(t);
    BareInner(u);
  }

  lemma {:induction false} SameLiteral(lit: Expr, mit: Expr, r: Expr, s: Expr, x: Expr, y: Expr, a: Option<Expr>,
                                       b: Option<Expr>)
    requires Bare(lit) == Bare(mit) && Bare(r) == Bare(s) && Bare(x) == Bare(y) && SameTag(a, b)
    ensures SameBranch(Some(Desugar.LiteralBranch(lit, r, x, a)), Some(Desugar.LiteralBranch(mit, s, y, b)))
  {
    hide Bare, SameBranch, Desugar.TagTest, MkEq, MkBlock, MkAnd, Mk;
    LiteralsAlike(lit, mit);
    match lit.kind {
      case Atom(Identifier(v)) =>
        BareParts(x, x, "", v, lit.ty);
        BareParts(y, y, "", v, mit.ty);
        BareTwo(Expr(Let(v, x), lit.ty, NO_NOTE), r);
        BareTwo(Expr(Let(v, y), mit.ty, NO_NOTE), s);
        SameUnder(a, b, r, s);
      case Call(EnumConstructor(name), _) =>
        BareParts(x, x, name, Global(""), UNKNOWN);
        BareParts(y, y, name, Global(""), UNKNOWN);
        SameUnder(a, b, Desugar.TagTest(x, name), Desugar.TagTest(y, name));
      case _ =>
        BareParts(x, lit, "", Global(""), UNKNOWN);
        BareParts(y, mit, "", Global(""), UNKNOWN);
    }
    BranchSame(Desugar.LiteralBranch(lit, r, x, a), Desugar.LiteralBranch(mit, s, y, b));
  }

  /** Erasing keeps the kind of an expression. */
  lemma {:induction false} KeepsKind(e: Expr)
    ensures Bare(e).kind.Unary? <==> e.kind.Unary?
    ensures Bare(e).kind.Binary? <==> e.kind.Binary?
    ensures Bare(e).kind.Record? <==> e.kind.Record?
    ensures Bare(e).kind.ListOf? <==> e.kind.ListOf?
    ensures Bare(e).kind.Block? <==> e.kind.Block?
    ensures Bare(e).kind.Let? <==> e.kind.Let?
    ensures Bare(e).kind.Cond? <==> e.kind.Cond?
    ensures Bare(e).kind.PatternMatch? <==> e.kind.PatternMatch?
  {
    hide BareAll, BareFields, BareOption, BareArms, BareType, BareCall;
  }

  lemma {:induction false} KeepsLoops(e: Expr)
    ensures Bare(e).kind.SelectIndex? <==> e.kind.SelectIndex?
    ensures Bare(e).kind.Call? <==> e.kind.Call?
    ensures Bare(e).kind.Comprehension? <==> e.kind.Comprehension?
    ensures Bare(e).kind.Reduce? <==> e.kind.Reduce?
    ensures Bare(e).kind.Range? <==> e.kind.Range?
    ensures Bare(e).kind.InvokeMethodLazy? <==> e.kind.InvokeMethodLazy?
  {
    hide BareAll, BareFields, BareOption, BareArms, BareType, BareCall;
  }

  lemma {:induction false} BareOperators(e: Expr)
    ensures hide *; e.kind.Unary? ==> Bare(e).kind == Unary(e.kind.unary, Bare(e.kind.arg))
    ensures e.kind.Binary? ==> Bare(e).kind == Binary(e.kind.binary, Bare(e.kind.lhs), Bare(e.kind.rhs))
    ensures e.kind.Let? ==> Bare(e).kind == Let(e.kind.variable, Bare(e.kind.bound))
    ensures e.kind.Cond? ==> Bare(e).kind == Cond(Bare(e.kind.cond), Bare(e.kind.lhs), Bare(e.kind.rhs))
  {
    hide BareAll, BareFields, BareOption, BareArms, BareType, BareCall;
  }

  lemma {:induction false} BareCollections(e: Expr)
    ensures hide *; e.kind.Record? ==> Bare(e).kind == Record(BareFields(e.kind.fields))
    ensures e.kind.ListOf? ==> Bare(e).kind == ListOf(e.kind.listOp, BareAll(e.kind.exprs))
    ensures e.kind.Block? ==> Bare(e).kind == Block(BareAll(e.kind.exprs))
    ensures e.kind.Call? ==> Bare(e).kind == Call(BareCall(e.kind.callType), BareAll(e.kind.args))
  {
    hide BareAll, BareFields, BareOption, BareArms, BareType, BareCall;
  }

  lemma {:induction false} BareLoops(e: Expr)
    ensures hide *;
            e.kind.Comprehension? ==> Bare(e).kind == Comprehension(e.kind.iterated, Bare(e.kind.iterable), Bare(e.kind.body))
    ensures e.kind.Reduce?
            ==> Bare(e).kind == Reduce(e.kind.reduced, e.kind.iterated, Bare(e.kind.iterable), Bare(e.kind.init), Bare(e.kind.body))
    ensures e.kind.SelectIndex?
            ==> Bare(e).kind == SelectIndex(Bare(e.kind.list), Expr(Bare(e.kind.index).kind,
                                                                    if e.kind.index.ty.inner.TRange? then RANGE else UNKNOWN, NO_NOTE))
  {
    hide BareAll, BareFields, BareOption, BareArms, BareType, BareCall;
  }

  lemma {:induction false} BareLeaf(e: Expr)
    ensures hide *; Bare(e).kind.Atom? <==> e.kind.Atom?
    ensures e.kind.Atom? ==> Bare(e).kind == e.kind
    ensures Bare(e).kind.Call? <==> e.kind.Call?
    ensures e.kind.Call? ==> Bare(e).kind.callType == BareCall(e.kind.callType)
  {
    hide BareAll, BareFields, BareOption, BareArms, BareType, BareCall;
  }

  lemma EnumsAlike(a: CallType, b: CallType)
    requires BareCall(a) == BareCall(b)
    ensures a.EnumConstructor? <==> b.EnumConstructor?
    ensures a.EnumConstructor? ==> a == b
  {
    hide BareOption;
  }

  lemma {:induction false} LiteralsAlike(a: Expr, b: Expr)
    requires hide *; Bare(a) == Bare(b)
    ensures a.kind.Atom? <==> b.kind.Atom?
    ensures a.kind.Atom? ==> a.kind.leaf == b.kind.leaf
    ensures a.kind.Call? <==> b.kind.Call?
    ensures a.kind.Call? ==> (a.kind.callType.EnumConstructor? <==> b.kind.callType.EnumConstructor?)
    ensures a.kind.Call? && a.kind.callType.EnumConstructor? ==> a.kind.callType == b.kind.callType
  {
    hide Bare, BareCall;
    BareLeaf(a);
    BareLeaf(b);
    if a.kind.Call? {
      EnumsAlike(a.kind.callType, b.kind.callType);
    }
  }

  lemma {:induction false} SameConstructor(name: string, ps: seq<ArmPattern>, qs: seq<ArmPattern>, r: Expr, s: Expr, x: Expr,
                                           y: Expr, a: Option<Expr>, b: Option<Expr>, t: InferredType, u: InferredType)
    requires BarePatterns(ps) == BarePatterns(qs) && Bare(r) == Bare(s) && Bare(x) == Bare(y) && SameTag(a, b)
    requires BareType(t) == BareType(u)
    ensures SameBranch(Desugar.ConstructorBranch(name, ps, r, x, a, t), Desugar.ConstructorBranch(name, qs, s, y, b, u))
    decreases ps, 1
  {
    hide Bare, BareType, BarePattern, BarePatterns, SameBranch, Desugar.Combined, Desugar.ItemBranches,
         Desugar.Conditions, Desugar.TagTest, Desugar.Under, MkUnwrap, MkBool, SameTag, BareBranch, BareBranches,
         BareCases, BareFieldTypes, BareMaybe, BareTypes, Desugar.FindCase;
    TypesAlike(t, u);
    NoBranch();
    if t.inner.TTuple? {
      var types := t.inner.items;
      SameItemBranches(ps, qs, x, y, types, u.inner.items, 0);
      SameCombined(Desugar.ItemBranches(ps, x, types, 0), Desugar.ItemBranches(qs, y, u.inner.items, 0), r, s, a, b);
    } else if t.inner.TList? {
      PatternCounts(ps, qs);
      var ts, us := seq(|ps|, _ => t.inner.elem), seq(|qs|, _ => u.inner.elem);
      assert BareTypes(ts) == BareTypes(us);
      SameItemBranches(ps, qs, x, y, ts, us, 0);
      SameCombined(Desugar.ItemBranches(ps, x, ts, 0), Desugar.ItemBranches(qs, y, us, 0), r, s, a, b);
    } else if t.inner.TUnknown? {
      BranchSame(Desugar.Branch(MkBool(false), r), Desugar.Branch(MkBool(false), s));
    } else if t.inner.TVariant? || t.inner.TOption? || t.inner.TResult? {
      SameTagged(name, ps, qs, r, s, x, y, a, b, t, u);
    }
  }

  lemma PatternCounts(ps: seq<ArmPattern>, qs: seq<ArmPattern>)
    requires hide *; BarePatterns(ps) == BarePatterns(qs)
    ensures |ps| == |qs| && forall i :: 0 <= i < |ps| && i == 0 ==> BarePattern(ps[i]) == BarePattern(qs[i])
  {
    hide BarePattern;
    if ps != [] {
      assert BarePatterns(ps)[0] == BarePatterns(qs)[0];
    }
  }

  /** The payload of a tagged value, if the pattern has one and the type knows it. */
  function Payload(name: string, ps: seq<ArmPattern>, t: InferredType): Option<InferredType> {
    hide *;
    if ps == [] then None else
    match t.inner
    case TVariant(cases) =>
      var found := Desugar.FindCase(cases, name);
      if found.Some? && found.value.Some? then Some(found.value.value) else None
    case TOption(inner) => if name == "some" then Some(inner) else None
    case TResult(ok, error) =>
      if name != "ok" && name != "err" then None
      else
        var inner := if name == "ok" then ok else error;
        Some(if inner.Some? then inner.value else UNKNOWN)
    case _ => None
  }

  lemma {:induction false} TaggedBranch(name: string, ps: seq<ArmPattern>, r: Expr, x: Expr, a: Option<Expr>,
                                        t: InferredType)
    requires hide Desugar.Conditions, Desugar.ConstructorBranch, Desugar.FindCase, Desugar.TagTest;
             t.inner.TVariant? || t.inner.TOption? || t.inner.TResult?
    ensures var tested := Desugar.Under(a, Desugar.TagTest(x, name));
            Desugar.ConstructorBranch(name, ps, r, x, a, t)
            == if Payload(name, ps, t).Some? then Desugar.Conditions(ps[0], r, MkUnwrap(x), Some(tested), Payload(name, ps, t).value)
               else if t.inner.TOption? && name == "none" then Some(Desugar.Branch(tested, r))
               else None
  {
    hide Desugar.Conditions, Desugar.Under, Desugar.TagTest, MkUnwrap, Desugar.FindCase;
  }

  lemma {:induction false} SamePayload(name: string, ps: seq<ArmPattern>, qs: seq<ArmPattern>, t: InferredType,
                                       u: InferredType)
    requires hide *; BareType(t) == BareType(u) && |ps| == |qs|
    ensures Payload(name, ps, t).Some? <==> Payload(name, qs, u).Some?
    ensures Payload(name, ps, t).Some? ==> BareType(Payload(name, ps, t).value) == BareType(Payload(name, qs, u).value)
  {
    hide BareType, Desugar.FindCase, BareCases, BareTypes;
    TypesAlike(t, u);
    if t.inner.TVariant? {
      SameCase(t.inner.variants, u.inner.variants, name);
    }
  }

  lemma {:induction false} SameTagged(name: string, ps: seq<ArmPattern>, qs: seq<ArmPattern>, r: Expr, s: Expr, x: Expr,
                                      y: Expr, a: Option<Expr>, b: Option<Expr>, t: InferredType, u: InferredType)
    requires t.inner.TVariant? || t.inner.TOption? || t.inner.TResult?
    requires BarePatterns(ps) == BarePatterns(qs) && Bare(r) == Bare(s) && Bare(x) == Bare(y) && SameTag(a, b)
    requires BareType(t) == BareType(u)
    ensures SameBranch(Desugar.ConstructorBranch(name, ps, r, x, a, t), Desugar.ConstructorBranch(name, qs, s, y, b, u))
    decreases ps, 0
  {
    hide Bare, BareType, BarePattern, BarePatterns, SameBranch, Desugar.ConstructorBranch, Desugar.Conditions,
         Desugar.TagTest, Desugar.Under, MkUnwrap, SameTag, Payload;
    TypesAlike(t, u);
    NoBranch();
    PatternCounts(ps, qs);
    BareParts(x, x, name, Global(""), UNKNOWN);
    BareParts(y, y, name, Global(""), UNKNOWN);
    SameUnder(a, b, Desugar.TagTest(x, name), Desugar.TagTest(y, name));
    var c, d := Desugar.Under(a, Desugar.TagTest(x, name)), Desugar.Under(b, Desugar.TagTest(y, name));
    SomeTag(c, d);
    TaggedBranch(name, ps, r, x, a, t);
    TaggedBranch(name, qs, s, y, b, u);
    SamePayload(name, ps, qs, t, u);
    if Payload(name, ps, t).Some? {
      PayloadPattern(name, ps, t);
      SameConditions(ps[0], qs[0], r, s, MkUnwrap(x), MkUnwrap(y), Some(c), Some(d), Payload(name, ps, t).value,
                     Payload(name, qs, u).value);
    } else {
      BranchSame(Desugar.Branch(c, r), Desugar.Branch(d, s));
    }
  }

  lemma PayloadPattern(name: string, ps: seq<ArmPattern>, t: InferredType)
    requires Payload(name, ps, t).Some?
    ensures ps != []
  {
    hide Desugar.FindCase;
  }

  lemma SomeTag(c: Expr, d: Expr)
    requires Bare(c) == Bare(d)
    ensures SameTag(Some(c), Some(d)) && SameTag(None, None)
  {
    hide Bare;
  }

  lemma {:induction false} SameItemBranches(ps: seq<ArmPattern>, qs: seq<ArmPattern>, x: Expr, y: Expr,
                                            ts: seq<InferredType>, us: seq<InferredType>, i: nat)
    requires BarePatterns(ps) == BarePatterns(qs) && Bare(x) == Bare(y) && BareTypes(ts) == BareTypes(us)
    ensures BareBranches(Desugar.ItemBranches(ps, x, ts, i)) == BareBranches(Desugar.ItemBranches(qs, y, us, i))
    decreases ps, 0
  {
    hide Bare, BareType, BarePattern, Desugar.Conditions, Desugar.ItemAt, BareBranch, SameTag;
    if ps != [] {
      assert BarePatterns(ps)[0] == BarePatterns(qs)[0] && BarePatterns(ps)[1..] == BarePatterns(qs)[1..];
      assert BarePatterns(ps)[1..] == BarePatterns(ps[1..]) && BarePatterns(qs)[1..] == BarePatterns(qs[1..]);
      BareItem(x, i);
      BareItem(y, i);
      SomeTag(x, y);
      var t, u := if i < |ts| then ts[i] else UNKNOWN, if i < |us| then us[i] else UNKNOWN;
      assert |ts| == |us| && (i < |ts| ==> BareTypes(ts)[i] == BareTypes(us)[i]);
      SameConditions(ps[0], qs[0], MkLit(""), MkLit(""), Desugar.ItemAt(x, i), Desugar.ItemAt(y, i), None, None, t, u);
      SameItemBranches(ps[1..], qs[1..], x, y, ts, us, i + 1);
      MoreBranches(Desugar.Conditions(ps[0], MkLit(""), Desugar.ItemAt(x, i), None, t),
                   Desugar.Conditions(qs[0], MkLit(""), Desugar.ItemAt(y, i), None, u),
                   Desugar.ItemBranches(ps[1..], x, ts, i + 1), Desugar.ItemBranches(qs[1..], y, us, i + 1));
    }
  }

  lemma {:induction false} MoreBranches(a: Option<Desugar.Branch>, b: Option<Desugar.Branch>, bs: seq<Desugar.Branch>,
                                        cs: seq<Desugar.Branch>)
    requires hide *; SameBranch(a, b) && BareBranches(bs) == BareBranches(cs)
    ensures BareBranches(if a.Some? then [a.value] + bs else bs) == BareBranches(if b.Some? then [b.value] + cs else cs)
  {
    hide BareBranch;
    if a.Some? {
      assert ([a.value] + bs)[1..] == bs && ([b.value] + cs)[1..] == cs;
    }
  }

  lemma {:induction false} SameFieldBranches(fps: seq<Field<ArmPattern>>, gps: seq<Field<ArmPattern>>, x: Expr, y: Expr,
                                             fs: seq<Field<InferredType>>, gs: seq<Field<InferredType>>)
    requires BareFieldPatterns(fps) == BareFieldPatterns(gps) && Bare(x) == Bare(y) && BareFieldTypes(fs) == BareFieldTypes(gs)
    ensures BareBranches(Desugar.FieldBranches(fps, x, fs)) == BareBranches(Desugar.FieldBranches(gps, y, gs))
    decreases fps
  {
    hide Bare, BareType, BarePattern, Desugar.Conditions, Desugar.FieldAt, BareBranch, SameTag;
    if fps != [] {
      assert BareFieldPatterns(fps)[0] == BareFieldPatterns(gps)[0] && BareFieldPatterns(fps)[1..] == BareFieldPatterns(gps)[1..];
      assert BareFieldPatterns(fps)[1..] == BareFieldPatterns(fps[1..]) && BareFieldPatterns(gps)[1..] == BareFieldPatterns(gps[1..]);
      var name := fps[0].name;
      BareParts(x, x, name, Global(""), UNKNOWN);
      BareParts(y, y, name, Global(""), UNKNOWN);
      SomeTag(x, y);
      SameField(fs, gs, name);
      var t, u := Desugar.FindField(fs, name), Desugar.FindField(gs, name);
      SameConditions(fps[0].of, gps[0].of, MkLit(""), MkLit(""), Desugar.FieldAt(x, name), Desugar.FieldAt(y, name), None, None, t, u);
      SameFieldBranches(fps[1..], gps[1..], x, y, fs, gs);
      MoreBranches(Desugar.Conditions(fps[0].of, MkLit(""), Desugar.FieldAt(x, name), None, t),
                   Desugar.Conditions(gps[0].of, MkLit(""), Desugar.FieldAt(y, name), None, u),
                   Desugar.FieldBranches(fps[1..], x, fs), Desugar.FieldBranches(gps[1..], y, gs));
    }
  }

  lemma {:induction false} SameConjunction(bs: seq<Desugar.Branch>, cs: seq<Desugar.Branch>, f: Expr, g: Expr)
    requires BareBranches(bs) == BareBranches(cs) && Bare(f) == Bare(g)
    ensures Bare(Desugar.AndAll(f, bs)) == Bare(Desugar.AndAll(g, cs)) && BareAll(Desugar.Bodies(bs)) == BareAll(Desugar.Bodies(cs))
    decreases |bs|
  {
    hide Bare, MkAnd;
    if bs != [] {
      assert BareBranches(bs)[0] == BareBranches(cs)[0] && BareBranches(bs)[1..] == BareBranches(cs)[1..];
      assert BareBranches(bs)[1..] == BareBranches(bs[1..]) && BareBranches(cs)[1..] == BareBranches(cs[1..]);
      BareParts(f, bs[0].condition, "", Global(""), UNKNOWN);
      BareParts(g, cs[0].condition, "", Global(""), UNKNOWN);
      SameConjunction(bs[1..], cs[1..], MkAnd(f, bs[0].condition), MkAnd(g, cs[0].condition));
      var a, b := Desugar.Bodies(bs), Desugar.Bodies(cs);
      assert a[1..] == Desugar.Bodies(bs[1..]) && b[1..] == Desugar.Bodies(cs[1..]);
      assert BareAll(a) == [Bare(a[0])] + BareAll(a[1..]) && BareAll(b) == [Bare(b[0])] + BareAll(b[1..]);
    }
  }

  lemma {:induction false} SameCombined(bs: seq<Desugar.Branch>, cs: seq<Desugar.Branch>, r: Expr, s: Expr, a: Option<Expr>,
                                        b: Option<Expr>)
    requires BareBranches(bs) == BareBranches(cs) && Bare(r) == Bare(s) && SameTag(a, b)
    ensures SameBranch(Desugar.Combined(bs, r, a), Desugar.Combined(cs, s, b))
  {
    hide Bare, MkBlock, MkAnd, SameBranch, SameTag, Desugar.Bodies, Desugar.AndAll, Desugar.Under, BareBranch;
    NoBranch();
    assert bs == [] <==> cs == [];
    if bs != [] {
      SameConjunction(bs, cs, MkBool(true), MkBool(true));
      SameUnder(a, b, Desugar.AndAll(MkBool(true), bs), Desugar.AndAll(MkBool(true), cs));
      BareBlock(Desugar.Bodies(bs), r);
      BareBlock(Desugar.Bodies(cs), s);
      BranchSame(Desugar.Combined(bs, r, a).value, Desugar.Combined(cs, s, b).value);
    }
  }

  lemma {:induction false} SameArms(arms: seq<MatchArm>, brms: seq<MatchArm>, x: Expr, y: Expr)
    requires BareArms(arms) == BareArms(brms) && Bare(x) == Bare(y) && BareType(x.ty) == BareType(y.ty)
    ensures BareBranches(Desugar.ArmBranches(x, arms)) == BareBranches(Desugar.ArmBranches(y, brms))
    decreases |arms|
  {
    hide Bare, BareType, BarePattern, Desugar.Conditions, BareBranch, SameTag;
    if arms != [] {
      assert BareArms(arms)[0] == BareArms(brms)[0] && BareArms(arms)[1..] == BareArms(brms)[1..];
      assert BareArms(arms)[1..] == BareArms(arms[1..]) && BareArms(brms)[1..] == BareArms(brms[1..]);
      SomeTag(x, y);
      SameConditions(arms[0].pattern, brms[0].pattern, arms[0].resolution, brms[0].resolution, x, y, None, None, x.ty, y.ty);
      SameArms(arms[1..], brms[1..], x, y);
      MoreBranches(Desugar.Conditions(arms[0].pattern, arms[0].resolution, x, None, x.ty),
                   Desugar.Conditions(brms[0].pattern, brms[0].resolution, y, None, y.ty),
                   Desugar.ArmBranches(x, arms[1..]), Desugar.ArmBranches(y, brms[1..]));
    }
  }

  lemma SameNest(bs: seq<Desugar.Branch>, cs: seq<Desugar.Branch>)
    requires BareBranches(bs) == BareBranches(cs)
    ensures Bare(Desugar.Nest(bs)) == Bare(Desugar.Nest(cs))
    decreases |bs|
  {
    hide Bare;
    if bs != [] {
      assert BareBranches(bs)[0] == BareBranches(cs)[0] && BareBranches(bs)[1..] == BareBranches(cs)[1..];
      assert BareBranches(bs)[1..] == BareBranches(bs[1..]) && BareBranches(cs)[1..] == BareBranches(cs[1..]);
      SameNest(bs[1..], cs[1..]);
      BareCond(bs[0].condition, bs[0].body, Desugar.Nest(bs[1..]));
      BareCond(cs[0].condition, cs[0].body, Desugar.Nest(cs[1..]));
    }
  }

  lemma BareCond(c: Expr, l: Expr, r: Expr)
    ensures Bare(Mk(Cond(c, l, r))) == Mk(Cond(Bare(c), Bare(l), Bare(r)))
  {
  }

  // ---------- plans ----------

  function BareChunk(c: Chunk): Chunk { Chunk(Bare(c.e), BareCode(c.tail)) }

  function BareChunks(cs: seq<Chunk>): (r: seq<Chunk>)
    ensures hide *; |r| == |cs| && forall i :: 0 <= i < |cs| ==> r[i] == BareChunk(cs[i])
  {
    seq(|cs|, i requires 0 <= i < |cs| => BareChunk(cs[i]))
  }

  /** The same parts, or the same expression to go on with; unless one of them is an error. */
  ghost predicate SamePlan(p: Plan, q: Plan) {
    hide *;
    || p.Bad? || q.Bad?
    || (p.Parts? && q.Parts? && BareChunks(p.chunks) == BareChunks(q.chunks) && BareCode(p.tail) == BareCode(q.tail)
        && p.labels == q.labels)
    || (p.Rewrite? && q.Rewrite? && Bare(p.to) == Bare(q.to))
  }

  lemma {:induction false} SameOperands(es: seq<Expr>, fs: seq<Expr>, t: seq<IR>, u: seq<IR>)
    requires BareAll(es) == BareAll(fs) && BareCode(t) == BareCode(u)
    ensures SamePlan(Operands(es, t), Operands(fs, u))
  {
    hide Bare, BareIR;
    var cs, ds := BareChunks(Plainly(es)), BareChunks(Plainly(fs));
    assert |es| == |fs|;
    forall i | 0 <= i < |es| ensures cs[i] == ds[i] {
      assert BareAll(es)[i] == BareAll(fs)[i];
    }
  }

  lemma {:induction false} SameTyped(t: InferredType, u: InferredType, es: seq<Expr>, fs: seq<Expr>, ir: WitType -> IR)
    requires BareAll(es) == BareAll(fs) && forall v, w :: BareIR(ir(v)) == BareIR(ir(w))
    ensures SamePlan(Typed(t, es, ir), Typed(u, fs, ir))
  {
    hide Bare, BareIR, WitOf, SamePlan, BareCode, Operands;
    AnyBad(Typed(t, es, ir), Typed(u, fs, ir));
    if WitOf(t).Some? && WitOf(u).Some? {
      SameOperands(es, fs, [ir(WitOf(t).value)], [ir(WitOf(u).value)]);
    }
  }

  lemma AnyBad(p: Plan, q: Plan)
    ensures p.Bad? || q.Bad? ==> SamePlan(p, q)
  {
    hide Bare, BareIR;
  }

  lemma SamePointwise(es: seq<Expr>, fs: seq<Expr>)
    requires hide *; |es| == |fs| && forall i :: 0 <= i < |es| ==> Bare(es[i]) == Bare(fs[i])
    ensures BareAll(es) == BareAll(fs)
  {
    hide Bare, BareAll;
  }

  lemma SameReversed(es: seq<Expr>, fs: seq<Expr>)
    requires BareAll(es) == BareAll(fs)
    ensures BareAll(Reverse(es)) == BareAll(Reverse(fs)) && |es| == |fs|
  {
    hide Bare, BareAll, Reverse;
    var n := |es|;
    assert n == |fs|;
    forall i | 0 <= i < n ensures Bare(Reverse(es)[i]) == Bare(Reverse(fs)[i]) {
      assert BareAll(es)[n - 1 - i] == BareAll(fs)[n - 1 - i];
    }
    SamePointwise(Reverse(es), Reverse(fs));
  }

  lemma SameFields(fs: seq<Field<Expr>>, gs: seq<Field<Expr>>)
    requires BareFields(fs) == BareFields(gs)
    ensures BareAll(Exprs(fs)) == BareAll(Exprs(gs)) && Updates(fs) == Updates(gs)
    decreases |fs|
  {
    hide Bare, WeightAll, WeightFields;
    if fs != [] {
      assert BareFields(fs)[0] == BareFields(gs)[0] && BareFields(fs)[1..] == BareFields(gs)[1..];
      assert BareFields(fs)[1..] == BareFields(fs[1..]) && BareFields(gs)[1..] == BareFields(gs[1..]);
      SameFields(fs[1..], gs[1..]);
      assert Exprs(fs)[1..] == Exprs(fs[1..]) && Exprs(gs)[1..] == Exprs(gs[1..]);
      assert BareAll(Exprs(fs)) == [Bare(Exprs(fs)[0])] + BareAll(Exprs(fs)[1..]);
      assert BareAll(Exprs(gs)) == [Bare(Exprs(gs)[0])] + BareAll(Exprs(gs)[1..]);
    }
  }

  lemma SameLeaf(leaf: Leaf, t: InferredType, u: InferredType)
    ensures SamePlan(LeafPlan(leaf, t), LeafPlan(leaf, u))
  {
    hide WitOf, NumberAs, SamePlan, BareAll, BareCode, Plainly;
    AnyBad(LeafPlan(leaf, t), LeafPlan(leaf, u));
    match leaf {
      case Number(n) =>
        if LeafPlan(leaf, t).Parts? && LeafPlan(leaf, u).Parts? {
          NumbersAlike(n, WitOf(t).value.num, WitOf(u).value.num);
          SameOperands([], [], [PushLit(NumberAs(n, WitOf(t).value.num).value)], [PushLit(NumberAs(n, WitOf(u).value.num).value)]);
        }
      case Flags(names) =>
        if LeafPlan(leaf, t).Parts? && LeafPlan(leaf, u).Parts? {
          SameOperands([], [], LeafPlan(leaf, t).tail, LeafPlan(leaf, u).tail);
        }
      case _ => SameOperands([], [], LeafPlan(leaf, t).tail, LeafPlan(leaf, u).tail);
    }
  }

  lemma NumbersAlike(n: real, k: NumberKind, l: NumberKind)
    requires hide *; NumberAs(n, k).Some? && NumberAs(n, l).Some?
    ensures BareCode([PushLit(NumberAs(n, k).value)]) == BareCode([PushLit(NumberAs(n, l).value)])
  {
  }

  lemma OneBare(a: Expr, b: Expr)
    ensures BareAll([a]) == [Bare(a)] && BareAll([a, b]) == [Bare(a), Bare(b)]
  {
    hide Bare;
    assert [a][1..] == [] && [a, b][1..] == [b];
  }

  lemma UnaryAlike(e: Expr, f: Expr)
    requires hide *; Bare(e) == Bare(f) && e.kind.Unary?
    ensures f.kind.Unary? && e.kind.unary == f.kind.unary && Bare(e.kind.arg) == Bare(f.kind.arg)
  {
    hide Bare, BareAll, BareFields, BareCall;
    KeepsKind(e);
    KeepsKind(f);
    BareOperators(e);
    BareOperators(f);
  }

  lemma {:induction false} SameUnary(op: UnaryOp, a: Expr, b: Expr, t: InferredType, u: InferredType)
    requires Bare(a) == Bare(b)
    ensures SamePlan(UnaryPlan(op, a, t), UnaryPlan(op, b, u))
  {
    hide WitOf, SamePlan, Bare, BareAll, Typed;
    OneBare(a, a);
    OneBare(b, b);
    match op {
      case MakeSome => SameTyped(t, u, [a], [b], w => PushSome(w));
      case MakeOk => SameTyped(t, u, [a], [b], w => PushOkResult(w));
      case MakeErr => SameTyped(t, u, [a], [b], w => PushErrResult(w));
      case GetTag => SameChunked([Chunk(a, [GetTagIR])], [Chunk(b, [GetTagIR])], [], [], 0);
      case _ => SameOperands([a], [b], UnaryPlan(op, a, t).tail, UnaryPlan(op, b, u).tail);
    }
  }

  lemma {:induction false} SameChunked(cs: seq<Chunk>, ds: seq<Chunk>, t: seq<IR>, u: seq<IR>, n: nat)
    requires hide *; |cs| == |ds| && forall i :: 0 <= i < |cs| ==> BareChunk(cs[i]) == BareChunk(ds[i])
    requires BareCode(t) == BareCode(u)
    ensures SamePlan(Parts(cs, t, n), Parts(ds, u, n))
  {
    hide BareChunk, BareIR, Bare;
    assert BareChunks(cs) == BareChunks(ds);
  }

  lemma BinaryAlike(e: Expr, f: Expr)
    requires hide *; Bare(e) == Bare(f) && e.kind.Binary?
    ensures f.kind.Binary? && e.kind.binary == f.kind.binary && Bare(e.kind.lhs) == Bare(f.kind.lhs) && Bare(e.kind.rhs) == Bare(f.kind.rhs)
  {
    hide Bare, BareAll, BareFields, BareCall;
    KeepsKind(e);
    KeepsKind(f);
    BareOperators(e);
    BareOperators(f);
  }

  lemma {:induction false} SameBinary(op: BinaryOp, l: Expr, r: Expr, k: Expr, q: Expr, t: InferredType, u: InferredType)
    requires Bare(l) == Bare(k) && Bare(r) == Bare(q)
    ensures SamePlan(BinaryPlan(op, l, r, t), BinaryPlan(op, k, q, u))
  {
    hide WitOf, SamePlan, Bare, BareAll, Typed, AndAsCond, OrAsCond;
    OneBare(r, l);
    OneBare(q, k);
    match op {
      case Compare(cmp) => SameOperands([r, l], [q, k], [CompareIR(cmp)], [CompareIR(cmp)]);
      case Math(m) => SameTyped(t, u, [r, l], [q, k], w => MathIR(m, w));
      case And =>
        BareAnd(l, r);
        BareAnd(k, q);
        SameRewrite(AndAsCond(l, r), AndAsCond(k, q));
      case Or =>
        BareOr(l, r);
        BareOr(k, q);
        SameRewrite(OrAsCond(l, r), OrAsCond(k, q));
    }
  }

  lemma SameRewrite(a: Expr, b: Expr)
    requires Bare(a) == Bare(b)
    ensures SamePlan(Rewrite(a), Rewrite(b))
  {
    hide Bare, BareChunk, BareChunks, BareCode, BareIR;
  }

  function IsTrue(e: Expr): Expr { Mk(Binary(Compare(EqualTo), e, Mk(Atom(Boolean(true))))) }

  lemma BareAnd(l: Expr, r: Expr)
    ensures Bare(AndAsCond(l, r)) == Mk(Cond(IsTrue(Bare(l)), IsTrue(Bare(r)), Mk(Atom(Boolean(false)))))
  {
    hide Bare, MkEq;
    BareCond(MkEq(l, MkBool(true)), MkEq(r, MkBool(true)), MkBool(false));
    BareTests(l);
    BareTests(r);
  }

  lemma BareOr(l: Expr, r: Expr)
    ensures Bare(OrAsCond(l, r)) == Mk(Cond(IsTrue(Bare(l)), Mk(Atom(Boolean(true))), IsTrue(Bare(r))))
  {
    hide Bare, MkEq;
    BareCond(MkEq(l, MkBool(true)), MkBool(true), MkEq(r, MkBool(true)));
    BareTests(l);
    BareTests(r);
  }

  lemma BareTests(e: Expr)
    ensures Bare(MkEq(e, MkBool(true))) == IsTrue(Bare(e)) && forall b :: Bare(MkBool(b)) == Mk(Atom(Boolean(b)))
  {
  }

  lemma {:induction false} ListsAlike(e: Expr, f: Expr)
    requires hide *; Bare(e) == Bare(f) && (e.kind.Record? || e.kind.ListOf? || e.kind.Block?)
    ensures e.kind.Record? ==> f.kind.Record? && BareFields(e.kind.fields) == BareFields(f.kind.fields)
    ensures e.kind.ListOf? ==> f.kind.ListOf? && e.kind.listOp == f.kind.listOp && BareAll(e.kind.exprs) == BareAll(f.kind.exprs)
    ensures e.kind.Block? ==> f.kind.Block? && BareAll(e.kind.exprs) == BareAll(f.kind.exprs)
  {
    hide Bare, BareAll, BareFields, BareCall;
    KeepsKind(e);
    KeepsKind(f);
    BareCollections(e);
    BareCollections(f);
  }

  lemma SameLists(e: Expr, f: Expr, n: nat)
    requires Bare(e) == Bare(f) && (e.kind.Record? || e.kind.ListOf? || e.kind.Block?)
    ensures SamePlan(PlanOf(e, n), PlanOf(f, n))
  {
    hide WitOf, SamePlan, Bare, BareAll, Typed, Reverse, BareFields, LeafPlan, UnaryPlan, BinaryPlan, MatchPlan,
         SelectPlan, CallPlan, RangePlan, Exprs, Operands;
    ListsAlike(e, f);
    if e.kind.Record? {
      SameFields(e.kind.fields, f.kind.fields);
      SameReversed(Exprs(e.kind.fields), Exprs(f.kind.fields));
      SameRecord(e.kind.fields, f.kind.fields, e.ty, f.ty);
    } else if e.kind.ListOf? {
      var es, fs := e.kind.exprs, f.kind.exprs;
      SameReversed(es, fs);
      match e.kind.listOp {
        case Sequence => SameTyped(e.ty, f.ty, Reverse(es), Reverse(fs), w => PushList(w, |es|));
        case Tuple => SameTyped(e.ty, f.ty, Reverse(es), Reverse(fs), w => PushTuple(w, |es|));
        case Concat => SameOperands(Reverse(es), Reverse(fs), [ConcatIR(|es|)], [ConcatIR(|es|)]);
      }
    } else {
      SameOperands(e.kind.exprs, f.kind.exprs, [], []);
    }
  }

  lemma {:induction false} SameRecord(fs: seq<Field<Expr>>, gs: seq<Field<Expr>>, t: InferredType, u: InferredType)
    requires BareAll(Reverse(Exprs(fs))) == BareAll(Reverse(Exprs(gs))) && Updates(fs) == Updates(gs)
    ensures SamePlan(RecordPlan(fs, t), RecordPlan(gs, u))
  {
    hide WitOf, SamePlan, Bare, BareAll, Reverse, Updates, BareIR, WeightAll, WeightFields;
    AnyBad(RecordPlan(fs, t), RecordPlan(gs, u));
    if WitOf(t).Some? && WitOf(u).Some? {
      var a, b := [CreateAndPushRecord(WitOf(t).value)], [CreateAndPushRecord(WitOf(u).value)];
      SameCreate(WitOf(t).value, WitOf(u).value);
      BareConcat(a, Updates(fs));
      BareConcat(b, Updates(gs));
      SameOperands(Reverse(Exprs(fs)), Reverse(Exprs(gs)), a + Updates(fs), b + Updates(gs));
    }
  }

  lemma SameCreate(v: WitType, w: WitType)
    ensures BareCode([CreateAndPushRecord(v)]) == BareCode([CreateAndPushRecord(w)])
    ensures BareCode([ToIterator, CreateSink(v)]) == BareCode([ToIterator, CreateSink(w)])
  {
  }

  lemma LetAlike(e: Expr, f: Expr)
    requires hide *; Bare(e) == Bare(f) && e.kind.Let?
    ensures f.kind.Let? && e.kind.variable == f.kind.variable && Bare(e.kind.bound) == Bare(f.kind.bound)
  {
    hide Bare;
    KeepsKind(e);
    KeepsKind(f);
    BareOperators(e);
    BareOperators(f);
  }

  lemma CondAlike(e: Expr, f: Expr)
    requires hide *; Bare(e) == Bare(f) && e.kind.Cond?
    ensures f.kind.Cond? && Bare(e.kind.cond) == Bare(f.kind.cond) && Bare(e.kind.lhs) == Bare(f.kind.lhs)
            && Bare(e.kind.rhs) == Bare(f.kind.rhs)
  {
    hide Bare;
    KeepsKind(e);
    KeepsKind(f);
    BareOperators(e);
    BareOperators(f);
  }

  lemma {:induction false} LoopsAlike(e: Expr, f: Expr)
    requires hide *; Bare(e) == Bare(f) && (e.kind.Comprehension? || e.kind.Reduce?)
    ensures e.kind.Comprehension? ==> f.kind.Comprehension? && e.kind.iterated == f.kind.iterated
    ensures e.kind.Reduce? ==> f.kind.Reduce? && e.kind.iterated == f.kind.iterated && e.kind.reduced == f.kind.reduced
    ensures e.kind.Reduce? ==> Bare(e.kind.init) == Bare(f.kind.init)
    ensures Bare(e.kind.iterable) == Bare(f.kind.iterable) && Bare(e.kind.body) == Bare(f.kind.body)
  {
    hide Bare, BareAll, BareFields, BareCall;
    KeepsLoops(e);
    KeepsLoops(f);
    BareLoops(e);
    BareLoops(f);
  }

  lemma SameControl(e: Expr, f: Expr, n: nat)
    requires Bare(e) == Bare(f) && (e.kind.Let? || e.kind.Cond? || e.kind.Comprehension? || e.kind.Reduce?)
    ensures SamePlan(PlanOf(e, n), PlanOf(f, n))
  {
    hide WitOf, SamePlan, Bare, BareAll, LeafPlan, UnaryPlan, BinaryPlan, MatchPlan, SelectPlan, CallPlan, RangePlan,
         RecordPlan, ListPlan, LoopHead, BareIR;
    match e.kind {
      case Let(v, b) =>
        LetAlike(e, f);
        OneBare(b, b);
        OneBare(f.kind.bound, b);
        SameOperands([b], [f.kind.bound], [AssignVar(v)], [AssignVar(v)]);
      case Cond(c, l, r) =>
        CondAlike(e, f);
        SameChunked(CondChunks(c, l, r, n), CondChunks(f.kind.cond, f.kind.lhs, f.kind.rhs, n), [], [], 2);
      case Comprehension(v, i, b) =>
        LoopsAlike(e, f);
        AnyBad(PlanOf(e, n), PlanOf(f, n));
        if WitOf(e.ty).Some? && WitOf(f.ty).Some? {
          var x, y := WitOf(e.ty).value, WitOf(f.ty).value;
          SameCreate(x, y);
          BareConcat([ToIterator, CreateSink(x)], LoopHead(n, v));
          BareConcat([ToIterator, CreateSink(y)], LoopHead(n, v));
          SameChunked(ComprehensionChunks(v, i, b, x, n), ComprehensionChunks(v, f.kind.iterable, f.kind.body, y, n), [], [], 2);
        }
      case Reduce(rv, v, i, s, b) =>
        LoopsAlike(e, f);
        SameChunked(ReduceChunks(rv, v, i, s, b, n), ReduceChunks(rv, v, f.kind.iterable, f.kind.init, f.kind.body, n), [], [], 2);
    }
  }

  lemma RangeAlike(e: Expr, f: Expr)
    requires hide *; Bare(e) == Bare(f) && e.kind.Range?
    ensures f.kind.Range? && Bare(e.kind.from) == Bare(f.kind.from) && BareOption(e.kind.to) == BareOption(f.kind.to)
    ensures e.kind.inclusive == f.kind.inclusive
  {
    hide BareAll, BareFields, BareOption, BareArms, BareType, BareCall;
  }

  lemma SameRecordTail(v: WitType, w: WitType, t: seq<IR>)
    ensures BareCode([CreateAndPushRecord(v)] + t) == BareCode([CreateAndPushRecord(w)] + t)
  {
    hide BareCode;
    SameCreate(v, w);
    BareConcat([CreateAndPushRecord(v)], t);
    BareConcat([CreateAndPushRecord(w)], t);
  }

  lemma SameRange(e: Expr, f: Expr, n: nat)
    requires Bare(e) == Bare(f) && e.kind.Range?
    ensures SamePlan(PlanOf(e, n), PlanOf(f, n))
  {
    hide WitOf, SamePlan, Bare, LeafPlan, UnaryPlan, BinaryPlan, MatchPlan, SelectPlan, CallPlan, RecordPlan,
         ListPlan, BareIR, BoolVT;
    RangeAlike(e, f);
    var p, q := PlanOf(e, n), PlanOf(f, n);
    AnyBad(p, q);
    if p.Parts? && q.Parts? {
      var v, w := WitOf(e.ty).value, WitOf(f.ty).value;
      SameRecordTail(v, w, p.tail[1..]);
      assert p.tail == [CreateAndPushRecord(v)] + p.tail[1..] && q.tail == [CreateAndPushRecord(w)] + p.tail[1..];
      SameChunked(p.chunks, q.chunks, p.tail, q.tail, 0);
    }
  }

  lemma CallsAlike(e: Expr, f: Expr)
    requires hide *; Bare(e) == Bare(f) && e.kind.Call?
    ensures f.kind.Call? && BareCall(e.kind.callType) == BareCall(f.kind.callType) && BareAll(e.kind.args) == BareAll(f.kind.args)
  {
    hide Bare, BareAll, BareFields, BareCall;
    KeepsLoops(e);
    KeepsLoops(f);
    BareCollections(e);
    BareCollections(f);
  }

  lemma {:induction false} TypesOfCalls(a: CallType, b: CallType)
    requires hide *; BareCall(a) == BareCall(b)
    ensures a.Function? ==> b.Function? && a.name == b.name && a.component == b.component && CallReceiver(a.receiver) == CallReceiver(b.receiver)
    ensures a.ResourceCreation? ==> b.ResourceCreation? && a.resource == b.resource && a.component == b.component
                                    && OwnerReceiver(a.owner) == OwnerReceiver(b.owner)
    ensures a.WorkerCreation? ==> b.WorkerCreation? && BareOption(a.workerName) == BareOption(b.workerName)
    ensures a.VariantConstructor? || a.EnumConstructor? ==> a == b
  {
    hide BareOption;
  }

  lemma {:induction false} SameInvocation(name: string, receiver: Result<InstanceVariable, GenError>, component: Option<int>,
                                          es: seq<Expr>, fs: seq<Expr>, t: Option<WitType>, u: Option<WitType>)
    requires BareAll(es) == BareAll(fs)
    ensures SamePlan(Invocation(name, receiver, component, es, t), Invocation(name, receiver, component, fs, u))
  {
    hide SamePlan, Bare, BareAll, Reverse, BareCode;
    var p, q := Invocation(name, receiver, component, es, t), Invocation(name, receiver, component, fs, u);
    AnyBad(p, q);
    SameReversed(es, fs);
    if p.Parts? {
      SameOperands(Reverse(es), Reverse(fs), p.tail, q.tail);
    }
  }

  lemma SameCalls(e: Expr, f: Expr, n: nat)
    requires Bare(e) == Bare(f) && e.kind.Call?
    ensures SamePlan(PlanOf(e, n), PlanOf(f, n))
  {
    hide WitOf, SamePlan, Bare, BareAll, BareCall, LeafPlan, UnaryPlan, BinaryPlan, MatchPlan, SelectPlan, RangePlan,
         RecordPlan, ListPlan, Reverse, Typed, Invocation, CallReceiver, OwnerReceiver, Operands, IsUnit, CondChunks;
    CallsAlike(e, f);
    var a, b, es, fs := e.kind.callType, f.kind.callType, e.kind.args, f.kind.args;
    TypesOfCalls(a, b);
    AnyBad(PlanOf(e, n), PlanOf(f, n));
    SameReversed(es, fs);
    var t, u := if IsUnit(e.ty) then None else WitOf(e.ty), if IsUnit(f.ty) then None else WitOf(f.ty);
    match a {
      case Function(name, receiver, component) =>
        SameInvocation(name, CallReceiver(receiver), component, es, fs, t, u);
      case ResourceCreation(name, owner, component) =>
        SameInvocation(name, OwnerReceiver(owner), component, es, fs, t, u);
      case WorkerCreation(name, _) =>
        if name.Some? {
          OneBare(name.value, name.value);
          OneBare(b.workerName.value, name.value);
          SameOperands([name.value], [b.workerName.value], [], []);
        } else {
          SameOperands(Reverse(es), Reverse(fs), [], []);
        }
      case VariantConstructor(name) => SameTyped(e.ty, f.ty, Reverse(es), Reverse(fs), w => PushVariant(name, w));
      case EnumConstructor(name) => SameTyped(e.ty, f.ty, Reverse(es), Reverse(fs), w => PushEnum(name, w));
    }
  }

  lemma SelectsAlike(e: Expr, f: Expr)
    requires hide *; Bare(e) == Bare(f) && e.kind.SelectIndex?
    ensures f.kind.SelectIndex? && Bare(e.kind.list) == Bare(f.kind.list) && Bare(e.kind.index) == Bare(f.kind.index)
    ensures e.kind.index.ty.inner.TRange? <==> f.kind.index.ty.inner.TRange?
  {
    hide Bare, BareAll;
    KeepsLoops(e);
    KeepsLoops(f);
    BareLoops(e);
    BareLoops(f);
    BareIsMk(e.kind.index);
    BareIsMk(f.kind.index);
  }

  lemma BareIsMk(e: Expr)
    ensures Bare(e) == Mk(Bare(e).kind)
  {
  }

  lemma BareItemOf(list: Expr)
    ensures Bare(Desugar.ItemOf(list)) == Mk(SelectIndex(Bare(list), Mk(Atom(Identifier(Desugar.ITEM)))))
  {
    hide BareAll, BareArms, BareCall, BareFields;
    assert Bare(MkVar(Desugar.ITEM)) == Mk(Atom(Identifier(Desugar.ITEM)));
  }

  function Var(v: VariableId): Expr { Mk(Atom(Identifier(v))) }

  lemma BareAtoms(t: InferredType)
    ensures forall leaf :: Bare(Expr(Atom(leaf), t, NO_NOTE)) == Mk(Atom(leaf))
  {
  }

  lemma {:induction false} BareUpToEnd(list: Expr, from: Expr)
    ensures BareAll(Desugar.UpToEnd(list, from))
            == [Mk(Let(Desugar.SIZE, Mk(Unary(Length, Bare(list))))),
                Mk(Let(Desugar.LAST_INDEX, Mk(Binary(Math(Minus), Var(Desugar.SIZE), Mk(Atom(Number(1.0))))))),
                Mk(Comprehension(Desugar.ITEM, Mk(Range(Bare(from), Some(Var(Desugar.LAST_INDEX)), false)), Bare(Desugar.ItemOf(list))))]
  {
    hide Desugar.ItemOf, BareType, BareFields, BareArms, BareCall;
    var es := Desugar.UpToEnd(list, from);
    var size, last, one := es[1].kind.bound.kind.lhs, es[2].kind.iterable.kind.to.value, es[1].kind.bound.kind.rhs;
    BareAtoms(from.ty);
    assert Bare(es[0].kind.bound) == Mk(Unary(Length, Bare(list)));
    assert Bare(es[1].kind.bound) == Mk(Binary(Math(Minus), Var(Desugar.SIZE), Mk(Atom(Number(1.0)))));
    assert Bare(es[2].kind.iterable) == Mk(Range(Bare(from), Some(Var(Desugar.LAST_INDEX)), false));
    assert BareAll(es) == [Bare(es[0]), Bare(es[1]), Bare(es[2])];
  }

  lemma SelectionOf(list: Expr, range: Expr)
    requires hide *; range.kind.Range?
    ensures Desugar.RangeSelection(list, range)
            == Some(if range.kind.to.Some? then Expr(Comprehension(Desugar.ITEM, range, Desugar.ItemOf(list)), list.ty, NO_NOTE)
                    else MkBlock(Desugar.UpToEnd(list, range.kind.from)))
  {
    hide Desugar.ItemOf, Desugar.UpToEnd, MkBlock;
  }

  lemma {:induction false} SameSelection(l: Expr, k: Expr, i: Expr, j: Expr)
    requires hide *; Bare(l) == Bare(k) && Bare(i) == Bare(j) && i.kind.Range? && j.kind.Range?
    ensures var s, r := Desugar.RangeSelection(l, i), Desugar.RangeSelection(k, j);
            s.Some? && r.Some? && Bare(s.value) == Bare(r.value)
  {
    hide Bare, BareAll, BareOption, MkBlock, Desugar.ItemOf, Desugar.UpToEnd, Desugar.RangeSelection;
    EndsAlike(i, j);
    SelectionOf(l, i);
    SelectionOf(k, j);
    if i.kind.to.Some? {
      SameLoop(l, k, i, j);
    } else {
      SameUpToEnd(l, k, i.kind.from, j.kind.from);
    }
  }

  lemma EndsAlike(i: Expr, j: Expr)
    requires hide *; Bare(i) == Bare(j) && i.kind.Range? && j.kind.Range?
    ensures Bare(i.kind.from) == Bare(j.kind.from) && (i.kind.to.Some? <==> j.kind.to.Some?)
  {
    hide Bare;
    RangeAlike(i, j);
  }

  lemma SameItemOf(l: Expr, k: Expr)
    requires Bare(l) == Bare(k)
    ensures Bare(Desugar.ItemOf(l)) == Bare(Desugar.ItemOf(k))
  {
    hide Bare, Desugar.ItemOf;
    BareItemOf(l);
    BareItemOf(k);
  }

  lemma {:induction false} SameLoop(l: Expr, k: Expr, i: Expr, j: Expr)
    requires Bare(l) == Bare(k) && Bare(i) == Bare(j)
    ensures Bare(Expr(Comprehension(Desugar.ITEM, i, Desugar.ItemOf(l)), l.ty, NO_NOTE))
            == Bare(Expr(Comprehension(Desugar.ITEM, j, Desugar.ItemOf(k)), k.ty, NO_NOTE))
  {
    hide Bare, Desugar.ItemOf;
    SameItemOf(l, k);
    var a, b := Desugar.ItemOf(l), Desugar.ItemOf(k);
    BareLoop(i, a, l.ty);
    BareLoop(j, b, k.ty);
  }

  lemma {:induction false} SameUpToEnd(l: Expr, k: Expr, f: Expr, g: Expr)
    requires Bare(l) == Bare(k) && Bare(f) == Bare(g)
    ensures Bare(MkBlock(Desugar.UpToEnd(l, f))) == Bare(MkBlock(Desugar.UpToEnd(k, g)))
  {
    hide Bare, BareAll, MkBlock, Desugar.ItemOf, Desugar.UpToEnd;
    BareItemOf(l);
    BareItemOf(k);
    BareUpToEnd(l, f);
    BareUpToEnd(k, g);
    BareOfBlock(Desugar.UpToEnd(l, f));
    BareOfBlock(Desugar.UpToEnd(k, g));
  }

  lemma BareLoop(i: Expr, b: Expr, t: InferredType)
    ensures Bare(Expr(Comprehension(Desugar.ITEM, i, b), t, NO_NOTE)) == Mk(Comprehension(Desugar.ITEM, Bare(i), Bare(b)))
  {
    hide BareArms, BareCall, BareType, Mk;
  }

  lemma {:induction false} SelectOf(e: Expr, n: nat)
    requires hide *; e.kind.SelectIndex?
    ensures var s := Desugar.RangeSelection(e.kind.list, e.kind.index);
            PlanOf(e, n)
            == if !e.kind.index.ty.inner.TRange? then Operands([e.kind.index, e.kind.list], [SelectIndexV1])
               else if s.None? then Bad(RangeSelectionDesugarError)
               else Rewrite(s.value)
    ensures !e.kind.index.kind.Range? ==> Desugar.RangeSelection(e.kind.list, e.kind.index).None?
  {
    hide Weight, Desugar.UpToEnd, Desugar.ItemOf, MatchPlan, RecordPlan, LeafPlan, CallPlan, WitOf;
  }

  lemma SameSelect(e: Expr, f: Expr, n: nat)
    requires Bare(e) == Bare(f) && e.kind.SelectIndex?
    ensures SamePlan(PlanOf(e, n), PlanOf(f, n))
  {
    hide SamePlan, Bare, BareAll, PlanOf, Desugar.RangeSelection, BareCode, BareIR, Operands;
    SelectsAlike(e, f);
    SelectOf(e, n);
    SelectOf(f, n);
    var i, j := e.kind.index, f.kind.index;
    AnyBad(PlanOf(e, n), PlanOf(f, n));
    if !i.ty.inner.TRange? {
      OneBare(i, e.kind.list);
      OneBare(j, f.kind.list);
      SameOperands([i, e.kind.list], [j, f.kind.list], [SelectIndexV1], [SelectIndexV1]);
    } else if i.kind.Range? && j.kind.Range? {
      SameSelection(e.kind.list, f.kind.list, i, j);
      SameRewrite(Desugar.RangeSelection(e.kind.list, i).value, Desugar.RangeSelection(f.kind.list, j).value);
    }
  }

  lemma MatchesAlike(e: Expr, f: Expr)
    requires hide *; Bare(e) == Bare(f) && e.kind.PatternMatch?
    ensures f.kind.PatternMatch? && Bare(e.kind.scrutinee) == Bare(f.kind.scrutinee)
    ensures BareType(e.kind.scrutinee.ty) == BareType(f.kind.scrutinee.ty) && BareArms(e.kind.arms) == BareArms(f.kind.arms)
  {
    hide BareAll, BareFields, BareOption, BareArms, BareType, BareCall;
    BareIsMk(e.kind.scrutinee);
    BareIsMk(f.kind.scrutinee);
  }

  lemma MatchOf(e: Expr, n: nat)
    requires hide *; e.kind.PatternMatch?
    ensures var bs := Desugar.ArmBranches(e.kind.scrutinee, e.kind.arms);
            PlanOf(e, n) == if bs == [] then Bad(PatternMatchDesugarError) else Rewrite(Desugar.Nest(bs))
  {
    hide Weight, Desugar.ArmBranches, Desugar.Nest, LeafPlan, CallPlan, SelectPlan, WitOf;
  }

  lemma SameMatch(e: Expr, f: Expr, n: nat)
    requires Bare(e) == Bare(f) && e.kind.PatternMatch?
    ensures SamePlan(PlanOf(e, n), PlanOf(f, n))
  {
    hide SamePlan, Bare, BareType, BareArms, BareBranches, PlanOf, Desugar.ArmBranches, Desugar.Nest;
    MatchesAlike(e, f);
    MatchOf(e, n);
    MatchOf(f, n);
    var bs, cs := Desugar.ArmBranches(e.kind.scrutinee, e.kind.arms), Desugar.ArmBranches(f.kind.scrutinee, f.kind.arms);
    SameArms(e.kind.arms, f.kind.arms, e.kind.scrutinee, f.kind.scrutinee);
    SameNest(bs, cs);
    AnyBad(PlanOf(e, n), PlanOf(f, n));
    if bs != [] && cs != [] {
      SameRewrite(Desugar.Nest(bs), Desugar.Nest(cs));
    }
  }

  lemma LazyAlike(e: Expr, f: Expr)
    requires Bare(e) == Bare(f) && e.kind.InvokeMethodLazy?
    ensures f.kind.InvokeMethodLazy?
  {
    hide Bare, BareAll, BareFields, BareCall;
    KeepsLoops(e);
    KeepsLoops(f);
  }

  lemma {:induction false} AtomPlans(e: Expr, n: nat)
    ensures hide *; e.kind.Atom? ==> PlanOf(e, n) == LeafPlan(e.kind.leaf, e.ty)
    ensures e.kind.Unary? ==> PlanOf(e, n) == UnaryPlan(e.kind.unary, e.kind.arg, e.ty)
    ensures e.kind.Binary? ==> PlanOf(e, n) == BinaryPlan(e.kind.binary, e.kind.lhs, e.kind.rhs, e.ty)
    ensures e.kind.InvokeMethodLazy? ==> PlanOf(e, n) == Operands([], [])
  {
    hide LeafPlan, UnaryPlan, BinaryPlan, MatchPlan, SelectPlan, CallPlan, RangePlan, RecordPlan, ListPlan, WitOf,
         Exprs, Weight;
  }

  /** Expressions that differ in their types only have the same plan, up to types. */
  lemma SamePlans(e: Expr, f: Expr, n: nat)
    requires Bare(e) == Bare(f)
    ensures SamePlan(PlanOf(e, n), PlanOf(f, n))
  {
    hide SamePlan, Bare, PlanOf, LeafPlan, UnaryPlan, BinaryPlan, BareIR;
    AtomPlans(e, n);
    AtomPlans(f, n);
    match e.kind {
      case Atom(leaf) =>
        LiteralsAlike(e, f);
        SameLeaf(leaf, e.ty, f.ty);
      case Unary(op, a) =>
        UnaryAlike(e, f);
        SameUnary(op, a, f.kind.arg, e.ty, f.ty);
      case Binary(op, l, r) =>
        BinaryAlike(e, f);
        SameBinary(op, l, r, f.kind.lhs, f.kind.rhs, e.ty, f.ty);
      case PatternMatch(_, _) => SameMatch(e, f, n);
      case SelectIndex(_, _) => SameSelect(e, f, n);
      case Call(_, _) => SameCalls(e, f, n);
      case Range(_, _, _) => SameRange(e, f, n);
      case InvokeMethodLazy(_, _, _) =>
        LazyAlike(e, f);
        SameOperands([], [], [], []);
      case Record(_) => SameLists(e, f, n);
      case ListOf(_, _) => SameLists(e, f, n);
      case Block(_) => SameLists(e, f, n);
      case _ => SameControl(e, f, n);
    }
  }

  // ---------- code ----------

  ghost predicate SameCode(g: Generated, h: Generated) {
    hide *;
    g.Ok? && h.Ok? ==> g.value.last == h.value.last && BareCode(g.value.code) == BareCode(h.value.code)
  }

  lemma {:induction false} ThenSame(g: Generated, h: Generated, t: seq<IR>, u: seq<IR>)
    requires SameCode(g, h) && BareCode(t) == BareCode(u)
    ensures SameCode(Then(g, t), Then(h, u))
  {
    hide BareIR;
    if g.Ok? && h.Ok? {
      BareConcat(g.value.code, t);
      BareConcat(h.value.code, u);
    }
  }

  /** If both compile, every instruction of the one stands at the same position in the other, up to types and numbers, with
      the same labels. */
  lemma {:induction false} SameGen(e: Expr, f: Expr, n: nat)
    requires Bare(e) == Bare(f)
    ensures SameCode(Gen(e, n), Gen(f, n))
    decreases Weight(e), 0, 0
  {
    hide PlanOf, Weight, ChunksWeight, Gen, GenChunks, Then, Bare, BareChunks, BareCode, SameCode, BareChunk, BareIR;
    SamePlans(e, f, n);
    PlanShrinks(e, n);
    GenUnfold(e, n);
    GenUnfold(f, n);
    AnyErr(Gen(e, n), Gen(f, n));
    var p, q := PlanOf(e, n), PlanOf(f, n);
    if p.Rewrite? && q.Rewrite? {
      SameGen(p.to, q.to, n);
    } else if p.Parts? && q.Parts? {
      SameGenChunks(p.chunks, q.chunks, n + p.labels);
      ThenSame(GenChunks(p.chunks, n + p.labels), GenChunks(q.chunks, n + p.labels), p.tail, q.tail);
    }
  }

  lemma AnyErr(g: Generated, h: Generated)
    ensures g.Err? || h.Err? ==> SameCode(g, h)
  {
  }

  lemma EmptySame(n: nat)
    ensures SameCode(Ok(Code([], n)), Ok(Code([], n)))
  {
  }

  lemma ChunkUnfold(cs: seq<Chunk>, n: nat)
    ensures hide *; GenChunks(cs, n)
            == if cs == [] then Ok(Code([], n)) else
               var last := cs[|cs| - 1];
               var g := Gen(last.e, n);
               if g.Err? then g else Then(GenChunks(cs[..|cs| - 1], g.value.last), g.value.code + last.tail)
  {
    hide Gen, Weight, Then;
  }

  lemma {:induction false} SameGenChunks(cs: seq<Chunk>, ds: seq<Chunk>, n: nat)
    requires BareChunks(cs) == BareChunks(ds)
    ensures SameCode(GenChunks(cs, n), GenChunks(ds, n))
    decreases ChunksWeight(cs), 1, |cs|
  {
    hide Gen, Weight, Then, GenChunks, Bare, BareIR, SameCode, BareChunks, BareCode;
    ChunkUnfold(cs, n);
    ChunkUnfold(ds, n);
    assert |cs| == |ds|;
    EmptySame(n);
    AnyErr(GenChunks(cs, n), GenChunks(ds, n));
    if cs != [] {
      var i := |cs| - 1;
      assert BareChunks(cs)[i] == BareChunks(ds)[i];
      SameGen(cs[i].e, ds[i].e, n);
      var g, h := Gen(cs[i].e, n), Gen(ds[i].e, n);
      if g.Ok? && h.Ok? {
        LastSame(g, h);
        assert BareChunks(cs[..i]) == BareChunks(cs)[..i] && BareChunks(ds[..i]) == BareChunks(ds)[..i];
        SameGenChunks(cs[..i], ds[..i], g.value.last);
        BareConcat(g.value.code, cs[i].tail);
        BareConcat(h.value.code, ds[i].tail);
        ThenSame(GenChunks(cs[..i], g.value.last), GenChunks(ds[..i], g.value.last), g.value.code + cs[i].tail,
                 h.value.code + ds[i].tail);
      }
    }
  }

  lemma LastSame(g: Generated, h: Generated)
    requires hide *; SameCode(g, h) && g.Ok? && h.Ok?
    ensures g.value.last == h.value.last && BareCode(g.value.code) == BareCode(h.value.code)
  {
  }

  /** Statements. */
  lemma SameScripts(es: seq<Expr>, fs: seq<Expr>)
    requires hide *; BareAll(es) == BareAll(fs)
    requires GenChunks(Plainly(es), 0).Ok? && GenChunks(Plainly(fs), 0).Ok?
    ensures BareCode(GenChunks(Plainly(es), 0).value.code) == BareCode(GenChunks(Plainly(fs), 0).value.code)
  {
    hide Gen, GenChunks, Bare, BareCode, BareChunk, BareIR, ChunkWeight;
    SameOperands(es, fs, [], []);
    SameGenChunks(Plainly(es), Plainly(fs), 0);
  }
}
