/** Rewriting of `match` into nested conditionals and of range selection into a comprehension. */
module Desugar {
  import opened Syntax

  // ---------- range selection ----------

  const ITEM: VariableId := ListComprehension("__i__")
  const SIZE: VariableId := Local("__size__", Some(0))
  const LAST_INDEX: VariableId := Local("__index__", Some(0))

  function ItemOf(list: Expr): Expr {
    Mk(SelectIndex(list, MkVar(ITEM)))
  }

  /** An open range runs to the last index: the size, the size minus one, and a comprehension up to there. The end
      of that range is excluded. */
  function UpToEnd(list: Expr, from: Expr): (es: seq<Expr>)
    ensures hide *; |es| == 3
  {
    var size := Expr(Atom(Identifier(SIZE)), from.ty, NO_NOTE);
    var last := Expr(Atom(Identifier(LAST_INDEX)), from.ty, NO_NOTE);
    var one := Expr(Atom(Number(1.0)), from.ty, NO_NOTE);
    var upTo := Expr(Range(from, Some(last), false), Plain(TRange(from.ty, Some(from.ty))), NO_NOTE);
    [Mk(Let(SIZE, Mk(Unary(Length, list)))),
     Expr(Let(LAST_INDEX, Expr(Binary(Math(Minus), size, one), from.ty, NO_NOTE)), from.ty, NO_NOTE),
     Expr(Comprehension(ITEM, upTo, ItemOf(list)), list.ty, NO_NOTE)]
  }

  function RangeSelection(list: Expr, range: Expr): Option<Expr> {
    match range.kind
    case Range(from, to, _) =>
      if to.Some? then Some(Expr(Comprehension(ITEM, range, ItemOf(list)), list.ty, NO_NOTE))
      else Some(MkBlock(UpToEnd(list, from)))
    case _ => None
  }

  // ---------- pattern match ----------

  datatype Branch = Branch(condition: Expr, body: Expr)

  /** The condition under which the rest of a pattern is looked at. */
  function OrTrue(tag: Option<Expr>): Expr {
    hide *;
    if tag.Some? then tag.value else MkBool(true)
  }

  function Under(tag: Option<Expr>, condition: Expr): Expr {
    hide *;
    if tag.Some? then MkAnd(tag.value, condition) else condition
  }

  function TagTest(pred: Expr, name: string): Expr {
    MkEq(MkTag(pred), MkLit(name))
  }

  function FindCase(cases: seq<Field<Option<InferredType>>>, name: string): Option<Option<InferredType>> {
    if cases == [] then None else if cases[0].name == name then Some(cases[0].of) else FindCase(cases[1..], name)
  }

  function FindField(fields: seq<Field<InferredType>>, name: string): InferredType {
    if fields == [] then UNKNOWN else if fields[0].name == name then fields[0].of else FindField(fields[1..], name)
  }

  function Conditions(p: ArmPattern, resolution: Expr, pred: Expr, tag: Option<Expr>, ty: InferredType): Option<Branch>
    decreases p
  {
    hide *;
    match p
    case LiteralPattern(lit) => Some(LiteralBranch(lit, resolution, pred, tag))
    case Constructor(name, ps) => ConstructorBranch(name, ps, resolution, pred, tag, ty)
    case TupleConstructor(ps) => ConstructorBranch("tuple", ps, resolution, pred, tag, ty)
    case ListConstructor(ps) => ConstructorBranch("list", ps, resolution, pred, tag, ty)
    case RecordConstructor(fps) =>
      (match ty.inner
       case TRecord(fields) => Combined(FieldBranches(fps, pred, fields), resolution, tag)
       case _ => None)
    case As(name, inner) =>
      var binding := Expr(Let(Global(name), pred), pred.ty, NO_NOTE);
      Conditions(inner, MkBlock([binding, resolution]), pred, tag, ty)
    case WildCard => Some(Branch(OrTrue(tag), resolution))
  }

  /** The third case compares the payload with the literal and does not look at the tag. */
  function LiteralBranch(lit: Expr, resolution: Expr, pred: Expr, tag: Option<Expr>): Branch {
    match lit.kind
    case Atom(Identifier(v)) =>
      Branch(OrTrue(tag), MkBlock([Expr(Let(v, pred), lit.ty, NO_NOTE), resolution]))
    case Call(EnumConstructor(name), _) =>
      Branch(Under(tag, TagTest(pred, name)), resolution)
    case _ =>
      Branch(MkEq(pred, lit), resolution)
  }

  function ConstructorBranch(name: string, ps: seq<ArmPattern>, resolution: Expr, pred: Expr,
                             tag: Option<Expr>, ty: InferredType): Option<Branch>
    decreases ps, 1
  {
    hide *;
    var tested := Under(tag, TagTest(pred, name));
    match ty.inner
    case TVariant(cases) =>
      var found := FindCase(cases, name);
      if ps != [] && found.Some? && found.value.Some? then
        Conditions(ps[0], resolution, MkUnwrap(pred), Some(tested), found.value.value)
      else None
    case TOption(inner) =>
      if name == "some" then
        if ps == [] then None else Conditions(ps[0], resolution, MkUnwrap(pred), Some(tested), inner)
      else if name == "none" then Some(Branch(tested, resolution))
      else None
    case TResult(ok, error) =>
      if (name != "ok" && name != "err") || ps == [] then None
      else
        var inner := if name == "ok" then ok else error;
        Conditions(ps[0], resolution, MkUnwrap(pred), Some(tested), if inner.Some? then inner.value else UNKNOWN)
    case TTuple(types) => Combined(ItemBranches(ps, pred, types, 0), resolution, tag)
    case TList(elem) => Combined(ItemBranches(ps, pred, seq(|ps|, _ => elem), 0), resolution, tag)
    case TUnknown => Some(Branch(MkBool(false), resolution))
    case _ => None
  }

  /** Selection of the item at a fixed position of a tuple or a list. */
  function ItemAt(pred: Expr, i: nat): Expr {
    Mk(SelectIndex(pred, Expr(Atom(Number(i as real)), Plain(TNum(U64)), NO_NOTE)))
  }

  function FieldAt(pred: Expr, name: string): Expr {
    Mk(Unary(SelectField(name), pred))
  }

  /** One branch for every item, with the empty string for a body; items without a branch are skipped. */
  function ItemBranches(ps: seq<ArmPattern>, pred: Expr, types: seq<InferredType>, i: nat): seq<Branch>
    decreases ps, 0
  {
    hide *;
    if ps == [] then [] else
    var branch := Conditions(ps[0], MkLit(""), ItemAt(pred, i), None, if i < |types| then types[i] else UNKNOWN);
    var rest := ItemBranches(ps[1..], pred, types, i + 1);
    if branch.Some? then [branch.value] + rest else rest
  }

  function FieldBranches(fps: seq<Field<ArmPattern>>, pred: Expr, fields: seq<Field<InferredType>>): seq<Branch>
    decreases fps
  {
    hide *;
    if fps == [] then [] else
    var branch := Conditions(fps[0].of, MkLit(""), FieldAt(pred, fps[0].name), None, FindField(fields, fps[0].name));
    var rest := FieldBranches(fps[1..], pred, fields);
    if branch.Some? then [branch.value] + rest else rest
  }

  /** All conditions in a row, then all bodies followed by the resolution. */
  function Combined(bs: seq<Branch>, resolution: Expr, tag: Option<Expr>): Option<Branch> {
    if bs == [] then None
    else Some(Branch(Under(tag, AndAll(MkBool(true), bs)), MkBlock(Bodies(bs) + [resolution])))
  }

  function AndAll(first: Expr, bs: seq<Branch>): Expr
    decreases bs
  {
    hide *;
    if bs == [] then first else AndAll(MkAnd(first, bs[0].condition), bs[1..])
  }

  function Bodies(bs: seq<Branch>): (es: seq<Expr>)
    ensures |es| == |bs|
  {
    if bs == [] then [] else [bs[0].body] + Bodies(bs[1..])
  }

  /** The conjunction is built by a loop that starts without a condition. */
  method AndCombine(bs: seq<Branch>) returns (cond: Option<Expr>)
    ensures cond == if bs == [] then None else Some(AndAll(MkBool(true), bs))
  {
    cond := None;
    for i := 0 to |bs|
      invariant cond.None? <==> i == 0
      invariant AndAll(OrTrue(cond), bs[i..]) == AndAll(MkBool(true), bs)
    {
      assert bs[i..][1..] == bs[i + 1..];
      cond := Some(MkAnd(OrTrue(cond), bs[i].condition));
    }
    assert bs[|bs|..] == [];
  }

  const NO_MATCH: string := "No match found"

  /** The branches in source order, ending in a throw. */
  function Nest(bs: seq<Branch>): Expr {
    hide *;
    if bs == [] then MkThrow(NO_MATCH) else Mk(Cond(bs[0].condition, bs[0].body, Nest(bs[1..])))
  }

  /** The nested conditional is grown from its inside: each round puts one branch in front of the else part. */
  method BuildExprFrom(bs: seq<Branch>) returns (e: Option<Expr>)
    ensures e == if bs == [] then None else Some(Nest(bs))
  {
    if bs == [] {
      return None;
    }
    var rhs := MkThrow(NO_MATCH);
    var i := |bs|;
    while i > 1
      invariant 1 <= i <= |bs|
      invariant rhs == Nest(bs[i..])
    {
      i := i - 1;
      assert bs[i..][1..] == bs[i + 1..];
      rhs := Mk(Cond(bs[i].condition, bs[i].body, rhs));
    }
    return Some(Mk(Cond(bs[0].condition, bs[0].body, rhs)));
  }

  /** The branches of the arms that have one. */
  function ArmBranches(pred: Expr, arms: seq<MatchArm>): seq<Branch> {
    hide *;
    if arms == [] then [] else
    var branch := Conditions(arms[0].pattern, arms[0].resolution, pred, None, pred.ty);
    var rest := ArmBranches(pred, arms[1..]);
    if branch.Some? then [branch.value] + rest else rest
  }

  function Match(pred: Expr, arms: seq<MatchArm>): Option<Expr> {
    var bs := ArmBranches(pred, arms);
    if bs == [] then None else Some(Nest(bs))
  }

  method DesugarPatternMatch(pred: Expr, arms: seq<MatchArm>) returns (e: Option<Expr>)
    ensures e == Match(pred, arms)
  {
    hide Conditions;
    var bs: seq<Branch> := [];
    for i := 0 to |arms|
      invariant ArmBranches(pred, arms) == bs + ArmBranches(pred, arms[i..])
    {
      var branch := Conditions(arms[i].pattern, arms[i].resolution, pred, None, pred.ty);
      assert arms[i..][1..] == arms[i + 1..];
      if branch.Some? {
        bs := bs + [branch.value];
      }
    }
    assert arms[|arms|..] == [] && bs == ArmBranches(pred, arms);
    e := BuildExprFrom(bs);
  }
}
