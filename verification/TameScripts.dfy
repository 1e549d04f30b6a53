/** A plain class of scripts that satisfies the stack discipline: comprehensions, reductions, selections of ranges and matches on
    tuples, lists and records are not operands, and blocks that are operands bind variables before they end in a value. */
module TameScripts {
  import opened Syntax
  import opened ByteCode
  import opened Evaluation
  import opened Simulation
  import opened Correctness
  import Desugar

  // ---------- the class ----------

  /** The expression has a value, as far as its form tells; a neat one leaves nothing else on the stack. */
  predicate Tame(e: Expr, neat: bool)
    decreases e, 0
  {
    hide *;
    match e.kind
    case Atom(_) => true
    case Unary(_, a) => Tame(a, true)
    case Binary(_, l, r) => Tame(l, true) && Tame(r, true)
    case Record(fs) => forall i | 0 <= i < |fs| :: Tame(fs[i].of, true)
    case ListOf(_, es) => forall i | 0 <= i < |es| :: Tame(es[i], true)
    case Block(es) =>
      es != [] && Tame(es[|es| - 1], neat) && forall i | 0 <= i < |es| - 1 :: TameStatement(es[i], neat)
    case Let(_, _) => false
    case Cond(c, l, r) => Tame(c, neat) && Tame(l, neat) && Tame(r, neat)
    case PatternMatch(p, arms) =>
      && Tame(p, true) && Desugar.ArmBranches(p, arms) != []
      && (forall i | 0 <= i < |arms| :: TameArm(arms[i], p.ty, neat))
    case SelectIndex(l, i) => Tame(l, true) && Tame(i, true) && (i.ty.inner.TRange? ==> i.kind.Range? && !neat)
    case Call(ct, args) =>
      && ArgsFit(ct, args, e.ty)
      && (ct.WorkerCreation? && ct.workerName.Some? ==> Tame(ct.workerName.value, true))
      && (forall i | 0 <= i < |args| :: Tame(args[i], true))
    case Comprehension(_, i, b) => !neat && Tame(i, false) && Tame(b, true)
    case Reduce(_, _, i, s, b) => !neat && Tame(i, false) && Tame(s, true) && Tame(b, true)
    case Range(f, t, _) => Tame(f, true) && (t.Some? ==> Tame(t.value, true))
    case InvokeMethodLazy(_, _, _) => false
  }

  /** A binding; or, where something may be left on the stack, any tame expression. */
  predicate TameStatement(e: Expr, neat: bool)
    decreases e, 1
  {
    hide *;
    if e.kind.Let? then Tame(e.kind.bound, neat) else !neat && Tame(e, false)
  }

  predicate TameArm(arm: MatchArm, ty: InferredType, neat: bool)
    decreases arm
  {
    hide *;
    Tame(arm.resolution, neat) && TamePattern(arm.pattern) && (neat ==> Flat(arm.pattern, ty))
  }

  /** The literals are tame. */
  predicate TamePattern(p: ArmPattern)
    decreases p
  {
    hide *;
    match p
    case LiteralPattern(lit) => Tame(lit, true)
    case As(_, q) => TamePattern(q)
    case Constructor(_, ps) => forall i | 0 <= i < |ps| :: TamePattern(ps[i])
    case TupleConstructor(ps) => forall i | 0 <= i < |ps| :: TamePattern(ps[i])
    case ListConstructor(ps) => forall i | 0 <= i < |ps| :: TamePattern(ps[i])
    case RecordConstructor(fps) => forall i | 0 <= i < |fps| :: TamePattern(fps[i].of)
    case WildCard => true
  }

  /** No parts of tuples, lists and records are matched. */
  predicate Flat(p: ArmPattern, ty: InferredType)
    decreases p
  {
    hide *;
    match p
    case WildCard => true
    case LiteralPattern(_) => true
    case As(_, q) => Flat(q, ty)
    case Constructor(name, ps) =>
      (match ty.inner
       case TVariant(cases) =>
         var found := Desugar.FindCase(cases, name);
         ps != [] && found.Some? && found.value.Some? ==> Flat(ps[0], found.value.value)
       case TOption(inner) => ps != [] ==> Flat(ps[0], inner)
       case TResult(ok, error) =>
         var inner := if name == "ok" then ok else error;
         ps != [] ==> Flat(ps[0], if inner.Some? then inner.value else UNKNOWN)
       case TTuple(_) => false
       case TList(_) => false
       case _ => true)
    case _ => false
  }

  // ---------- neat is more than tame ----------

  lemma {:induction false} NeatIsTame(e: Expr)
    requires Tame(e, true)
    ensures Tame(e, false)
    decreases e
  {
    hide TamePattern, Flat, ArgsFit, Desugar.ArmBranches;
    match e.kind
    case Block(es) =>
      NeatIsTame(es[|es| - 1]);
      forall i | 0 <= i < |es| - 1 ensures TameStatement(es[i], false) {
        NeatStatement(es[i]);
      }
    case Cond(c, l, r) =>
      NeatIsTame(c);
      NeatIsTame(l);
      NeatIsTame(r);
    case PatternMatch(p, arms) =>
      forall i | 0 <= i < |arms| ensures TameArm(arms[i], p.ty, false) {
        NeatArm(arms[i], p.ty);
      }
    case _ =>
  }

  lemma {:induction false} NeatStatement(e: Expr)
    requires TameStatement(e, true)
    ensures TameStatement(e, false)
    decreases e, 1
  {
    hide Tame;
    NeatIsTame(e.kind.bound);
  }

  lemma {:induction false} NeatArm(arm: MatchArm, ty: InferredType)
    requires TameArm(arm, ty, true)
    ensures TameArm(arm, ty, false)
    decreases arm
  {
    hide Tame, TamePattern, Flat;
    NeatIsTame(arm.resolution);
  }

  lemma TameEither(e: Expr, neat: bool)
    requires Tame(e, true)
    ensures Tame(e, neat)
  {
    hide Tame;
    if !neat {
      NeatIsTame(e);
    }
  }

  // ---------- what the rewriting builds ----------

  lemma {:induction false} TameParts(a: Expr, b: Expr, name: string, i: nat)
    requires Tame(a, true) && Tame(b, true)
    ensures Tame(MkAnd(a, b), true) && Tame(MkEq(a, b), true) && Tame(MkUnwrap(a), true)
    ensures Tame(Desugar.TagTest(a, name), true) && Tame(Desugar.FieldAt(a, name), true)
  {
    hide TameArm, Desugar.ArmBranches, ArgsFit;
  }

  lemma TameItem(a: Expr, i: nat)
    requires Tame(a, true)
    ensures Tame(Desugar.ItemAt(a, i), true)
  {
    hide ArgsFit, Desugar.ArmBranches, TameArm, TameStatement;
    var index := Desugar.ItemAt(a, i).kind.index;
    assert Tame(index, true);
  }

  lemma TameAtoms(b: bool, s: string)
    ensures Tame(MkBool(b), true) && Tame(MkLit(s), true) && Tame(MkLit(s), false) && Tame(MkThrow(s), true) && Tame(MkThrow(s), false)
  {
    hide TameArm, Desugar.ArmBranches, ArgsFit;
  }

  lemma TameBlock(es: seq<Expr>, last: Expr, neat: bool)
    requires Tame(last, neat) && forall x :: x in es ==> TameStatement(x, neat)
    ensures Tame(MkBlock(es + [last]), neat)
  {
    hide TameStatement, ArgsFit, Desugar.ArmBranches, TameArm;
    var all := es + [last];
    forall i | 0 <= i < |all| - 1 ensures TameStatement(all[i], neat) {
      assert all[i] == es[i] && es[i] in es;
    }
  }

  lemma {:induction false} TameLet(v: VariableId, x: Expr, ty: InferredType, res: Expr, neat: bool)
    requires Tame(x, true) && Tame(res, neat)
    ensures Tame(MkBlock([Expr(Let(v, x), ty, NO_NOTE), res]), neat)
  {
    hide Tame;
    var binding := Expr(Let(v, x), ty, NO_NOTE);
    TameEither(x, neat);
    TameBlock([binding], res, neat);
    assert [binding] + [res] == [binding, res];
  }

  ghost predicate TameTag(tag: Option<Expr>) { hide *; tag.Some? ==> Tame(tag.value, true) }

  lemma TameUnder(tag: Option<Expr>, c: Expr)
    requires TameTag(tag) && Tame(c, true)
    ensures Tame(Desugar.Under(tag, c), true) && Tame(Desugar.OrTrue(tag), true)
  {
    hide Tame, Desugar.TagTest, Desugar.FieldAt, MkEq;
    TameAtoms(true, "");
    if tag.Some? {
      TameParts(tag.value, c, "", 0);
    }
  }

  ghost predicate TameBranch(b: Desugar.Branch, neat: bool) { Tame(b.condition, true) && Tame(b.body, neat) }

  ghost predicate MaybeTame(b: Option<Desugar.Branch>, neat: bool) { hide *; b.Some? ==> TameBranch(b.value, neat) }

  lemma {:induction false} TameConditions(p: ArmPattern, res: Expr, pred: Expr, tag: Option<Expr>, ty: InferredType,
                                          neat: bool)
    requires Tame(pred, true) && Tame(res, neat) && TameTag(tag) && TamePattern(p) && (neat ==> Flat(p, ty))
    ensures MaybeTame(Desugar.Conditions(p, res, pred, tag, ty), neat)
    decreases p
  {
    hide Tame, TameTag, Desugar.Combined, Desugar.FieldBranches, Desugar.ConstructorBranch, Desugar.LiteralBranch,
         MkBool;
    match p
    case WildCard => TameUnder(tag, pred);
    case LiteralPattern(lit) => TameLiteral(lit, res, pred, tag, neat);
    case As(name, q) =>
      var binding := Expr(Let(Global(name), pred), pred.ty, NO_NOTE);
      TameLet(Global(name), pred, pred.ty, res, neat);
      TameConditions(q, MkBlock([binding, res]), pred, tag, ty, neat);
    case Constructor(name, ps) => TameConstructor(name, ps, res, pred, tag, ty, neat);
    case TupleConstructor(ps) => TameConstructor("tuple", ps, res, pred, tag, ty, neat);
    case ListConstructor(ps) => TameConstructor("list", ps, res, pred, tag, ty, neat);
    case RecordConstructor(fps) =>
      if ty.inner.TRecord? {
        TameFields(fps, pred, ty.inner.fields);
        TameCombined(Desugar.FieldBranches(fps, pred, ty.inner.fields), res, tag);
      }
  }

  lemma {:induction false} LiteralBranches(lit: Expr, res: Expr, pred: Expr, tag: Option<Expr>)
    ensures hide *; Desugar.LiteralBranch(lit, res, pred, tag)
            == if lit.kind.Atom? && lit.kind.leaf.Identifier? then
                 Desugar.Branch(Desugar.OrTrue(tag), MkBlock([Expr(Let(lit.kind.leaf.variable, pred), lit.ty, NO_NOTE), res]))
               else if lit.kind.Call? && lit.kind.callType.EnumConstructor? then
                 Desugar.Branch(Desugar.Under(tag, Desugar.TagTest(pred, lit.kind.callType.enum_)), res)
               else Desugar.Branch(MkEq(pred, lit), res)
  {
    hide MkBlock, MkEq, Desugar.TagTest, Desugar.Under, Desugar.OrTrue;
  }

  lemma {:induction false} TameLiteral(lit: Expr, res: Expr, pred: Expr, tag: Option<Expr>, neat: bool)
    requires Tame(pred, true) && Tame(res, neat) && TameTag(tag) && Tame(lit, true)
    ensures TameBranch(Desugar.LiteralBranch(lit, res, pred, tag), neat)
  {
    hide Tame, TameTag, MkBlock, MkEq, Desugar.TagTest, Desugar.Under, Desugar.OrTrue, Desugar.LiteralBranch,
         Desugar.FieldAt;
    LiteralBranches(lit, res, pred, tag);
    TameParts(pred, lit, "", 0);
    if lit.kind.Atom? && lit.kind.leaf.Identifier? {
      TameUnder(tag, pred);
      TameLet(lit.kind.leaf.variable, pred, lit.ty, res, neat);
    } else if lit.kind.Call? && lit.kind.callType.EnumConstructor? {
      TameParts(pred, pred, lit.kind.callType.enum_, 0);
      TameUnder(tag, Desugar.TagTest(pred, lit.kind.callType.enum_));
    }
  }

  lemma {:induction false} TameConstructor(name: string, ps: seq<ArmPattern>, res: Expr, pred: Expr, tag: Option<Expr>,
                                           ty: InferredType, neat: bool)
    requires hide *;
             Tame(pred, true) && Tame(res, neat) && TameTag(tag) && (forall i :: 0 <= i < |ps| ==> TamePattern(ps[i]))
    requires neat ==> Flat(Constructor(name, ps), ty)
    ensures MaybeTame(Desugar.ConstructorBranch(name, ps, res, pred, tag, ty), neat)
    decreases ps, 1
  {
    hide Tame, TamePattern, TameTag, Desugar.Combined, Desugar.ItemBranches, Desugar.Conditions, Desugar.TagTest,
         Desugar.Under, MkUnwrap, MkBool, AllTameBranches, Desugar.FindCase;
    TameAtoms(false, "");
    var tested := Desugar.Under(tag, Desugar.TagTest(pred, name));
    TameParts(pred, pred, name, 0);
    TameUnder(tag, Desugar.TagTest(pred, name));
    SomeTameTag(tested);
    match ty.inner
    case TVariant(cases) =>
      var found := Desugar.FindCase(cases, name);
      if ps != [] && found.Some? && found.value.Some? {
        TameConditions(ps[0], res, MkUnwrap(pred), Some(tested), found.value.value, neat);
      }
    case TOption(inner) =>
      if ps != [] {
        TameConditions(ps[0], res, MkUnwrap(pred), Some(tested), inner, neat);
      }
    case TResult(ok, error) =>
      if ps != [] {
        var inner := if name == "ok" then ok else error;
        TameConditions(ps[0], res, MkUnwrap(pred), Some(tested), if inner.Some? then inner.value else UNKNOWN, neat);
      }
    case TTuple(types) =>
      TameItems(ps, pred, types, 0);
      TameCombined(Desugar.ItemBranches(ps, pred, types, 0), res, tag);
    case TList(elem) =>
      var types := seq(|ps|, _ => elem);
      TameItems(ps, pred, types, 0);
      TameCombined(Desugar.ItemBranches(ps, pred, types, 0), res, tag);
    case _ =>
  }

  lemma SomeTameTag(t: Expr)
    requires Tame(t, true)
    ensures TameTag(Some(t)) && TameTag(None)
  {
    hide Tame;
  }

  ghost predicate AllTameBranches(bs: seq<Desugar.Branch>) { forall b :: b in bs ==> TameBranch(b, false) }

  lemma {:induction false} TameItems(ps: seq<ArmPattern>, pred: Expr, types: seq<InferredType>, i: nat)
    requires hide *; Tame(pred, true) && (forall k :: 0 <= k < |ps| ==> TamePattern(ps[k]))
    ensures AllTameBranches(Desugar.ItemBranches(ps, pred, types, i))
    decreases ps, 0
  {
    hide Tame, TamePattern, TameTag, Desugar.Conditions, Desugar.ItemAt, TameBranch, MkLit, Flat, MkBool, MkThrow;
    if ps != [] {
      TameAtoms(true, "");
      TameItem(pred, i);
      SomeTameTag(pred);
      TameConditions(ps[0], MkLit(""), Desugar.ItemAt(pred, i), None, if i < |types| then types[i] else UNKNOWN, false);
      TameItems(ps[1..], pred, types, i + 1);
    }
  }

  lemma {:induction false} TameFields(fps: seq<Field<ArmPattern>>, pred: Expr, fields: seq<Field<InferredType>>)
    requires hide *; Tame(pred, true) && (forall k :: 0 <= k < |fps| ==> TamePattern(fps[k].of))
    ensures AllTameBranches(Desugar.FieldBranches(fps, pred, fields))
    decreases fps
  {
    hide Tame, TamePattern, TameTag, Desugar.Conditions, Desugar.FieldAt, TameBranch, MkLit, Flat;
    if fps != [] {
      TameAtoms(true, "");
      TameParts(pred, pred, fps[0].name, 0);
      SomeTameTag(pred);
      TameConditions(fps[0].of, MkLit(""), Desugar.FieldAt(pred, fps[0].name), None, Desugar.FindField(fields, fps[0].name), false);
      TameFields(fps[1..], pred, fields);
    }
  }

  lemma {:induction false} TameAll(first: Expr, bs: seq<Desugar.Branch>)
    requires Tame(first, true) && AllTameBranches(bs)
    ensures Tame(Desugar.AndAll(first, bs), true)
    ensures forall x :: x in Desugar.Bodies(bs) ==> TameStatement(x, false)
    decreases |bs|
  {
    hide Tame, MkAnd, TameStatement, Desugar.TagTest, Desugar.FieldAt, MkEq, MkUnwrap;
    if bs != [] {
      assert bs[0] in bs && forall b :: b in bs[1..] ==> b in bs;
      TameParts(first, bs[0].condition, "", 0);
      TameAll(MkAnd(first, bs[0].condition), bs[1..]);
      TameIsStatement(bs[0].body);
    }
  }

  lemma TameIsStatement(e: Expr)
    requires Tame(e, false)
    ensures TameStatement(e, false) && !e.kind.Let?
  {
    hide TameArm, Desugar.ArmBranches, ArgsFit;
  }

  lemma TameCombined(bs: seq<Desugar.Branch>, res: Expr, tag: Option<Expr>)
    requires AllTameBranches(bs) && Tame(res, false) && TameTag(tag)
    ensures MaybeTame(Desugar.Combined(bs, res, tag), false)
  {
    hide Tame, TameTag, TameStatement, AllTameBranches, MkBlock, MkBool, Desugar.Under, Desugar.AndAll,
         Desugar.Bodies;
    if bs != [] {
      TameAtoms(true, "");
      TameAll(MkBool(true), bs);
      TameUnder(tag, Desugar.AndAll(MkBool(true), bs));
      TameBlock(Desugar.Bodies(bs), res, false);
    }
  }

  lemma {:induction false} TameNest(pred: Expr, arms: seq<MatchArm>, neat: bool)
    requires hide *; Tame(pred, true) && forall i :: 0 <= i < |arms| ==> TameArm(arms[i], pred.ty, neat)
    ensures Tame(Desugar.Nest(Desugar.ArmBranches(pred, arms)), neat)
    decreases |arms|
  {
    hide Tame, TamePattern, Flat, Desugar.Conditions, TameTag, MkThrow, MkLit, MkBool, Mk;
    if arms == [] {
      TameAtoms(true, Desugar.NO_MATCH);
    } else {
      SomeTameTag(pred);
      TameConditions(arms[0].pattern, arms[0].resolution, pred, None, pred.ty, neat);
      TameNest(pred, arms[1..], neat);
      var b := Desugar.Conditions(arms[0].pattern, arms[0].resolution, pred, None, pred.ty);
      var rest := Desugar.ArmBranches(pred, arms[1..]);
      if b.Some? {
        assert ([b.value] + rest)[1..] == rest;
        TameEither(b.value.condition, neat);
        TameCond(b.value.condition, b.value.body, Desugar.Nest(rest), neat);
      }
    }
  }

  lemma {:induction false} TameCond(c: Expr, l: Expr, r: Expr, neat: bool)
    requires Tame(c, neat) && Tame(l, neat) && Tame(r, neat)
    ensures Tame(Mk(Cond(c, l, r)), neat)
  {
    hide TameArm, Desugar.ArmBranches, ArgsFit;
  }

  // ---------- tame expressions are disciplined ----------

  ghost predicate Settles(e: Expr, neat: bool) { hide Discipline, Weight; Yields(Discipline(e)) && (neat ==> !Discipline(e).value.junk) }

  lemma OpsTame(e: Expr)
    requires hide *; IsStrict(e) && Tame(e, true)
    ensures forall x :: x in Ops(e) ==> Tame(x, true)
    ensures e.kind.Call? ==> ArgsFit(e.kind.callType, e.kind.args, e.ty)
  {
    hide ArgsFit, WeightAll, TameArm, TameStatement, Desugar.ArmBranches, Exprs, IsStrict;
  }

  lemma StrictEither(e: Expr, neat: bool)
    requires IsStrict(e) && Tame(e, neat)
    ensures Tame(e, true)
  {
    hide ArgsFit, Desugar.ArmBranches, TameArm, TameStatement;
  }

  lemma {:induction false} OperandsSettle(es: seq<Expr>)
    requires forall x :: x in es ==> Neat(Discipline(x))
    ensures OperandDiscipline(es) == Some(false)
    decreases |es|
  {
    hide Discipline, Weight;
    if es != [] {
      assert es[|es| - 1] in es;
      OperandsSettle(es[..|es| - 1]);
    }
  }

  lemma StrictSettles(e: Expr)
    requires hide *; IsStrict(e) && OperandDiscipline(Ops(e)) == Some(false)
    requires e.kind.Call? ==> ArgsFit(e.kind.callType, e.kind.args, e.ty)
    ensures Discipline(e) == Some(Shape(true, false, SolidResult(e)))
  {
    hide OperandDiscipline, ArgsFit, Ops, Weight, SolidResult, BlockDiscipline, PlanOf;
  }

  lemma InOpsWeighs(es: seq<Expr>, x: Expr)
    requires x in es
    ensures Weight(x) <= WeightAll(es)
    decreases |es|
  {
    hide Weight;
    if es[0] != x {
      InOpsWeighs(es[1..], x);
    }
  }

  /** A tame expression satisfies the discipline, and a neat one leaves nothing but its value. */
  lemma {:induction false} TameDisciplined(e: Expr, neat: bool)
    requires Tame(e, neat)
    ensures Settles(e, neat)
    decreases Weight(e), 1
  {
    hide Tame, Discipline, Weight, WeightAll, OperandDiscipline, BlockDiscipline, PlanOf, Ops, ArgsFit, SolidResult;
    if IsStrict(e) {
      StrictEither(e, neat);
      OpsTame(e);
      OpsShrink(e);
      forall x | x in Ops(e) ensures Neat(Discipline(x)) {
        InOpsWeighs(Ops(e), x);
        TameDisciplined(x, true);
      }
      OperandsSettle(Ops(e));
      StrictSettles(e);
    } else {
      NotStrict(e, neat);
    }
  }

  lemma TameLogical(e: Expr, neat: bool)
    requires hide *; e.kind.Binary? && Tame(e, neat)
    ensures Tame(e.kind.lhs, true) && Tame(e.kind.rhs, true) && Weight(e.kind.lhs) < Weight(e) && Weight(e.kind.rhs) < Weight(e)
  {
    hide TameArm, Desugar.ArmBranches, ArgsFit, ArmsCost;
  }

  lemma LogicalSettles(e: Expr)
    requires hide *; e.kind.Binary? && !IsStrict(e) && Neat(Discipline(e.kind.lhs)) && Neat(Discipline(e.kind.rhs))
    ensures Neat(Discipline(e))
  {
    hide PlanOf, Weight, OperandDiscipline, BlockDiscipline, ArgsFit, Ops;
  }

  lemma TameCondition(e: Expr, neat: bool)
    requires hide *; e.kind.Cond? && Tame(e, neat)
    ensures Tame(e.kind.cond, neat) && Tame(e.kind.lhs, neat) && Tame(e.kind.rhs, neat)
    ensures Weight(e.kind.cond) < Weight(e) && Weight(e.kind.lhs) < Weight(e) && Weight(e.kind.rhs) < Weight(e)
  {
    hide TameArm, Desugar.ArmBranches, ArgsFit, WeightFields, ArmsCost;
  }

  lemma TameLoops(e: Expr, neat: bool)
    requires hide *; (e.kind.Comprehension? || e.kind.Reduce?) && Tame(e, neat)
    ensures !neat && Tame(e.kind.iterable, false) && Tame(e.kind.body, true) && (e.kind.Reduce? ==> Tame(e.kind.init, true))
    ensures Weight(e.kind.iterable) < Weight(e) && Weight(e.kind.body) < Weight(e) && (e.kind.Reduce? ==> Weight(e.kind.init) < Weight(e))
  {
    hide Desugar.ArmBranches, ArgsFit, Flat;
  }

  lemma LoopsSettle(e: Expr)
    requires hide *; e.kind.Comprehension? || e.kind.Reduce?
    requires Yields(Discipline(e.kind.iterable)) && Neat(Discipline(e.kind.body)) && (e.kind.Reduce? ==> Neat(Discipline(e.kind.init)))
    ensures Yields(Discipline(e))
  {
    hide PlanOf, Weight, OperandDiscipline, BlockDiscipline, ArgsFit, Ops;
  }

  lemma TameBlockParts(e: Expr, neat: bool)
    requires hide *; e.kind.Block? && Tame(e, neat)
    ensures var es := e.kind.exprs;
            es != [] && Tame(es[|es| - 1], neat) && forall i :: 0 <= i < |es| - 1 ==> TameStatement(es[i], neat)
  {
    hide TameStatement, ArgsFit, Desugar.ArmBranches, TameArm;
  }

  lemma TameMatch(e: Expr, neat: bool)
    requires hide *; e.kind.PatternMatch? && Tame(e, neat)
    ensures PlanOf(e, 0).Rewrite? && Tame(PlanOf(e, 0).to, neat)
  {
    hide Weight, TameArm, Desugar.ArmBranches, Desugar.Nest, ArgsFit, PlanOf, TameStatement;
    TameNest(e.kind.scrutinee, e.kind.arms, neat);
    MatchPlanIsNest(e);
  }

  lemma MatchPlanIsNest(e: Expr)
    requires hide *; e.kind.PatternMatch? && Desugar.ArmBranches(e.kind.scrutinee, e.kind.arms) != []
    ensures PlanOf(e, 0) == Rewrite(Desugar.Nest(Desugar.ArmBranches(e.kind.scrutinee, e.kind.arms)))
  {
    hide Weight, Desugar.ArmBranches, Desugar.Nest, LeafPlan, CallPlan, SelectPlan, WitOf;
  }

  lemma TameSelection(e: Expr, neat: bool)
    requires hide *; e.kind.SelectIndex? && !IsStrict(e) && Tame(e, neat)
    ensures !neat && PlanOf(e, 0).Rewrite? && Tame(PlanOf(e, 0).to, false)
  {
    hide Weight, Desugar.ItemOf, Desugar.UpToEnd, LeafPlan;
    var SelectIndex(l, i) := e.kind;
    TameItemOf(l);
    NeatIsTame(i);
    if i.kind.to.None? {
      TameUpToEnd(l, i.kind.from);
    }
  }

  lemma TameItemOf(l: Expr)
    requires Tame(l, true)
    ensures Tame(Desugar.ItemOf(l), true)
  {
    hide ArgsFit, Desugar.ArmBranches, TameArm, TameStatement;
    assert Tame(MkVar(Desugar.ITEM), true);
  }

  lemma TameUpToEnd(l: Expr, f: Expr)
    requires Tame(l, true) && Tame(f, true)
    ensures Tame(MkBlock(Desugar.UpToEnd(l, f)), false)
  {
    hide Desugar.ItemOf, TameArm, Desugar.ArmBranches, MkBlock;
    var es := Desugar.UpToEnd(l, f);
    TameItemOf(l);
    assert TameStatement(es[0], false);
    var one := es[1].kind.bound;
    assert Tame(one.kind.lhs, true) && Tame(one.kind.rhs, true);
    assert Tame(one, false);
    assert TameStatement(es[1], false);
    assert Tame(es[2].kind.iterable, false);
    assert Tame(es[2], false);
    TameBlock([es[0], es[1]], es[2], false);
    assert [es[0], es[1]] + [es[2]] == es;
  }

  lemma RewrittenSettles(e: Expr, neat: bool)
    requires hide *; e.kind.PatternMatch? || (e.kind.SelectIndex? && !IsStrict(e))
    requires PlanOf(e, 0).Rewrite? && Settles(PlanOf(e, 0).to, neat)
    ensures Settles(e, neat) && Weight(PlanOf(e, 0).to) < Weight(e)
  {
    hide Weight, PlanOf, OperandDiscipline, BlockDiscipline, ArgsFit, Ops;
    PlanShrinks(e, 0);
  }

  lemma {:induction false} NotStrict(e: Expr, neat: bool)
    requires Tame(e, neat) && !IsStrict(e)
    ensures Settles(e, neat)
    decreases Weight(e), 0
  {
    hide Tame, Discipline, Weight, WeightAll, OperandDiscipline, BlockDiscipline, PlanOf, Ops;
    match e.kind
    case Binary(_, l, r) =>
      TameLogical(e, neat);
      TameDisciplined(l, true);
      TameDisciplined(r, true);
      LogicalSettles(e);
    case Block(es) =>
      TameBlockParts(e, neat);
      BlockStatic(e);
      WeightLast(es);
      TameDisciplined(es[|es| - 1], neat);
      StatementsSettle(es[..|es| - 1], neat);
      LastSettles(es, neat);
    case Cond(c, l, r) =>
      TameCondition(e, neat);
      TameDisciplined(c, neat);
      TameDisciplined(l, neat);
      TameDisciplined(r, neat);
      DisciplineOfCond(e);
    case PatternMatch(_, _) =>
      TameMatch(e, neat);
      PlanShrinks(e, 0);
      TameDisciplined(PlanOf(e, 0).to, neat);
      RewrittenSettles(e, neat);
    case SelectIndex(_, _) =>
      TameSelection(e, neat);
      PlanShrinks(e, 0);
      TameDisciplined(PlanOf(e, 0).to, false);
      RewrittenSettles(e, false);
    case Comprehension(_, i, b) =>
      TameLoops(e, neat);
      TameDisciplined(i, false);
      TameDisciplined(b, true);
      LoopsSettle(e);
    case Reduce(_, _, i, s, b) =>
      TameLoops(e, neat);
      TameDisciplined(i, false);
      TameDisciplined(s, true);
      TameDisciplined(b, true);
      LoopsSettle(e);
    case _ => Refused(e, neat);
  }

  lemma Refused(e: Expr, neat: bool)
    requires e.kind.Let? || e.kind.InvokeMethodLazy?
    ensures !Tame(e, neat)
  {
    hide TameArm, Desugar.ArmBranches, ArgsFit;
  }

  lemma LetSettles(e: Expr)
    requires hide Discipline, Weight; e.kind.Let? && Yields(Discipline(e.kind.bound))
    ensures Discipline(e) == Some(Shape(false, Discipline(e.kind.bound).value.junk, false)) && Weight(e.kind.bound) < Weight(e)
  {
    hide PlanOf, OperandDiscipline, BlockDiscipline, ArgsFit, Ops;
  }

  lemma LetWeighs(e: Expr)
    requires hide *; e.kind.Let?
    ensures Weight(e.kind.bound) < Weight(e)
  {
  }

  lemma {:induction false} StatementsSettle(es: seq<Expr>, neat: bool)
    requires hide *; forall i :: 0 <= i < |es| ==> TameStatement(es[i], neat)
    ensures BlockDiscipline(es).Some?
    ensures neat ==> !BlockDiscipline(es).value.value && !BlockDiscipline(es).value.junk
    decreases WeightAll(es), 3, |es|
  {
    hide Tame, Discipline, Weight, WeightAll;
    if es != [] {
      var last := es[|es| - 1];
      WeightLast(es);
      StatementSettles(last, neat);
      StatementsSettle(es[..|es| - 1], neat);
    }
  }

  lemma {:induction false} StatementSettles(e: Expr, neat: bool)
    requires hide *; TameStatement(e, neat)
    ensures Discipline(e).Some? && (neat ==> !Discipline(e).value.value && !Discipline(e).value.junk)
    decreases Weight(e), 2
  {
    hide Tame, Discipline, Weight;
    if e.kind.Let? {
      LetWeighs(e);
      TameDisciplined(e.kind.bound, neat);
      LetSettles(e);
    } else {
      TameDisciplined(e, false);
    }
  }

  lemma LastSettles(es: seq<Expr>, neat: bool)
    requires hide BlockDiscipline, Discipline;
             es != [] && Settles(es[|es| - 1], neat) && BlockDiscipline(es[..|es| - 1]).Some?
    requires neat ==> !BlockDiscipline(es[..|es| - 1]).value.value && !BlockDiscipline(es[..|es| - 1]).value.junk
    ensures Yields(BlockDiscipline(es)) && (neat ==> !BlockDiscipline(es).value.junk)
  {
    hide Discipline, Weight, WeightAll;
  }

  /** A script of bindings and tame expressions satisfies the discipline; so it means what its code does, and it ends. */
  lemma TameScript(es: seq<Expr>)
    requires hide *; forall i :: 0 <= i < |es| ==> TameStatement(es[i], false)
    ensures Discipline(Mk(Block(es))).Some?
  {
    hide Discipline, BlockDiscipline, TameStatement, Weight, WeightAll;
    StatementsSettle(es, false);
    BlockStatic(Mk(Block(es)));
  }
}
