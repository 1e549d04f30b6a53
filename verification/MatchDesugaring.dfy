/** What a match means, and which arm the nested conditionals choose that it is rewritten to. */
module MatchDesugaring {
  import opened Syntax
  import opened Values
  import opened Machine
  import opened Evaluation
  import opened Running
  import opened Simulation
  import opened ByteCode
  import Desugar

  // ===== What a match means: the first arm whose pattern fits the value, with the variables the pattern binds.

  type Bindings = map<VariableId, StackValue>

  // ---------- patterns and values ----------

  /** The payload (if there is one) of a value that is in the case of that name. */
  function InCase(name: string, vt: ValueAndType): Option<Option<ValueAndType>> {
    hide *;
    match vt
    case VT(VOption(Some(x)), WOption(t)) => if name == "some" then Some(Some(VT(x, t))) else None
    case VT(VOption(None), _) => if name == "none" then Some(None) else None
    case VT(VOk(Some(x)), WResult(Some(t), _)) => if name == "ok" then Some(Some(VT(x, t))) else None
    case VT(VErr(Some(x)), WResult(_, Some(t))) => if name == "err" then Some(Some(VT(x, t))) else None
    case VT(VVariant(i, payload), WVariant(cases)) =>
      if i >= |cases| || cases[i].name != name then None
      else if payload.Some? && cases[i].of.Some? then Some(Some(VT(payload.value, cases[i].of.value)))
      else if payload.None? then Some(None)
      else None
    case _ => None
  }

  function EnumCase(vt: ValueAndType): Option<string> {
    match vt
    case VT(VEnum(i), WEnum(cases)) => if i < |cases| then Some(cases[i]) else None
    case _ => None
  }

  /** The value of a literal in a pattern. */
  function LiteralOf(lit: Expr): Option<LiteralValue> {
    hide *;
    match lit.kind
    case Atom(Literal(s)) => Some(LStr(s))
    case Atom(Boolean(b)) => Some(LBool(b))
    case Atom(Number(n)) =>
      var t := WitOf(lit.ty);
      if t.Some? && t.value.WNum? && NumberAs(n, t.value.num).Some? then GetLiteral(NumberAs(n, t.value.num).value) else None
    case _ => None
  }

  function Matches(p: ArmPattern, vt: ValueAndType): Option<Bindings>
    decreases p
  {
    hide *;
    match p
    case WildCard => Some(map[])
    case LiteralPattern(lit) => MatchesLiteral(lit, vt)
    case As(name, q) =>
      var m := Matches(q, vt);
      if m.Some? then Some(m.value[Global(name) := Val(vt)]) else None
    case Constructor(name, ps) =>
      var payload := InCase(name, vt);
      if payload.None? then None
      else if ps == [] then if payload.value.None? then Some(map[]) else None
      else if payload.value.Some? then Matches(ps[0], payload.value.value)
      else None
    case TupleConstructor(ps) =>
      (match vt
       case VT(VTuple(items), WTuple(types)) =>
         if |ps| <= |items| && |ps| <= |types| then MatchesItems(ps, items, types) else None
       case _ => None)
    case RecordConstructor(fps) =>
      (match vt
       case VT(VRecord(items), WRecord(fields)) => if |items| == |fields| then MatchesFields(fps, items, fields) else None
       case _ => None)
    case ListConstructor(_) => None
  }

  function MatchesLiteral(lit: Expr, vt: ValueAndType): Option<Bindings> {
    match lit.kind
    case Atom(Identifier(v)) => Some(map[v := Val(vt)])
    case Call(EnumConstructor(name), _) => if EnumCase(vt) == Some(name) then Some(map[]) else None
    case _ => if LiteralOf(lit).Some? && LiteralOf(lit) == GetLiteral(vt) then Some(map[]) else None
  }

  /** All items fit; their variables are bound from the first to the last. */
  function MatchesItems(ps: seq<ArmPattern>, items: seq<Value>, types: seq<WitType>): Option<Bindings>
    requires hide *; |ps| <= |items| && |ps| <= |types|
    decreases ps
  {
    if ps == [] then Some(map[]) else
    var m, rest := Matches(ps[0], VT(items[0], types[0])), MatchesItems(ps[1..], items[1..], types[1..]);
    if m.Some? && rest.Some? then Some(m.value + rest.value) else None
  }

  function MatchesFields(fps: seq<Field<ArmPattern>>, items: seq<Value>, fields: seq<Field<WitType>>): Option<Bindings>
    requires hide *; |items| == |fields|
    decreases fps
  {
    if fps == [] then Some(map[]) else
    var i := FieldIndex(fields, fps[0].name);
    if i.None? then None else
    var m, rest := Matches(fps[0].of, VT(items[i.value], fields[i.value].of)), MatchesFields(fps[1..], items, fields);
    if m.Some? && rest.Some? then Some(m.value + rest.value) else None
  }

  // ---------- well-typed scrutinees ----------

  function CaseNamesOf(cases: seq<Field<Option<InferredType>>>): (ns: seq<string>)
    ensures |ns| == |cases|
  {
    seq(|cases|, i requires 0 <= i < |cases| => cases[i].name)
  }

  function FieldNamesOf(fields: seq<Field<InferredType>>): (ns: seq<string>)
    ensures |ns| == |fields|
  {
    seq(|fields|, i requires 0 <= i < |fields| => fields[i].name)
  }

  /** The value, with its WIT type, is one of the inferred type. */
  predicate HasShape(v: Value, t: WitType, ty: InferredType)
    decreases v
  {
    hide *;
    match ty.inner
    case TBool => v.VBool?
    case TNum(_) => v.VNum?
    case TChr => v.VChar?
    case TStr => v.VStr?
    case TEnum(_) => v.VEnum? && t.WEnum? && v.idx < |t.cases|
    case TOption(inner) => v.VOption? && (v.inner.Some? ==> t.WOption? && HasShape(v.inner.value, t.some, inner))
    case TResult(ok, error) =>
      || (v.VOk? && v.inner.Some? == ok.Some?
          && (v.inner.Some? ==> t.WResult? && t.ok.Some? && HasShape(v.inner.value, t.ok.value, ok.value)))
      || (v.VErr? && v.inner.Some? == error.Some?
          && (v.inner.Some? ==> t.WResult? && t.err.Some? && HasShape(v.inner.value, t.err.value, error.value)))
    case TVariant(cases) =>
      && v.VVariant? && t.WVariant? && |t.variants| == |cases| && v.idx < |cases| && NoRepeats(CaseNamesOf(cases))
      && (forall i | 0 <= i < |cases| :: t.variants[i].name == cases[i].name)
      && v.payload.Some? == t.variants[v.idx].of.Some? == cases[v.idx].of.Some?
      && (v.payload.Some? ==> HasShape(v.payload.value, t.variants[v.idx].of.value, cases[v.idx].of.value))
    case TTuple(types) =>
      && v.VTuple? && t.WTuple? && |v.items| == |types| == |t.items|
      && (forall i | 0 <= i < |types| :: HasShape(v.items[i], t.items[i], types[i]))
    case TRecord(fields) =>
      && v.VRecord? && t.WRecord? && |v.items| == |fields| == |t.fields| && NoRepeats(FieldNamesOf(fields))
      && (forall i | 0 <= i < |fields| :: t.fields[i].name == fields[i].name && HasShape(v.items[i], t.fields[i].of, fields[i].of))
    case _ => true
  }

  /** The patterns this is about. */
  predicate Covered(p: ArmPattern, ty: InferredType)
    decreases p
  {
    hide *;
    match p
    case WildCard => true
    case LiteralPattern(lit) => CoveredLiteral(lit, ty)
    case As(_, q) => Covered(q, ty)
    case Constructor(name, ps) =>
      (match ty.inner
       case TVariant(cases) =>
         var found := Desugar.FindCase(cases, name);
         |ps| == 1 && found.Some? && found.value.Some? && Covered(ps[0], found.value.value)
       case TOption(inner) => if name == "some" then |ps| == 1 && Covered(ps[0], inner) else name == "none" && ps == []
       case TResult(ok, error) =>
         |ps| == 1 && ((name == "ok" && ok.Some? && Covered(ps[0], ok.value))
                       || (name == "err" && error.Some? && Covered(ps[0], error.value)))
       case _ => false)
    case TupleConstructor(ps) =>
      ty.inner.TTuple? && 0 < |ps| <= |ty.inner.items| && |ps| <= MaxOf(U64) && ItemsCovered(ps, ty.inner.items)
    case RecordConstructor(fps) => ty.inner.TRecord? && fps != [] && FieldsCovered(fps, ty.inner.fields)
    case ListConstructor(_) => false
  }

  predicate IsIdentifier(lit: Expr) { lit.kind.Atom? && lit.kind.leaf.Identifier? }

  predicate IsEnum(lit: Expr) { lit.kind.Call? && lit.kind.callType.EnumConstructor? }

  predicate CoveredLiteral(lit: Expr, ty: InferredType) {
    if IsIdentifier(lit) then true
    else if IsEnum(lit) then ty.inner.TEnum?
    else LiteralOf(lit).Some? && (ty.inner.TBool? || ty.inner.TNum? || ty.inner.TChr? || ty.inner.TStr? || ty.inner.TEnum?)
  }

  predicate ItemsCovered(ps: seq<ArmPattern>, types: seq<InferredType>)
    requires hide *; |ps| <= |types|
    decreases ps
  {
    ps == [] || (Covered(ps[0], types[0]) && ItemsCovered(ps[1..], types[1..]))
  }

  predicate FieldsCovered(fps: seq<Field<ArmPattern>>, fields: seq<Field<InferredType>>)
    decreases fps
  {
    hide *;
    fps == [] ||
    (fps[0].name in FieldNamesOf(fields) && Covered(fps[0].of, Desugar.FindField(fields, fps[0].name))
     && FieldsCovered(fps[1..], fields))
  }

  /** The variables a pattern binds. */
  function Binders(p: ArmPattern): set<VariableId>
    decreases p
  {
    hide *;
    match p
    case WildCard => {}
    case LiteralPattern(lit) => if lit.kind.Atom? && lit.kind.leaf.Identifier? then {lit.kind.leaf.variable} else {}
    case As(name, q) => {Global(name)} + Binders(q)
    case Constructor(_, ps) => AllBinders(ps)
    case TupleConstructor(ps) => AllBinders(ps)
    case RecordConstructor(fps) => FieldBinders(fps)
    case ListConstructor(ps) => AllBinders(ps)
  }

  function AllBinders(ps: seq<ArmPattern>): set<VariableId>
    decreases ps
  {
    hide *;
    if ps == [] then {} else Binders(ps[0]) + AllBinders(ps[1..])
  }

  function FieldBinders(fps: seq<Field<ArmPattern>>): set<VariableId>
    decreases fps
  {
    hide *;
    if fps == [] then {} else Binders(fps[0].of) + FieldBinders(fps[1..])
  }

  lemma {:induction false} MatchBinds(p: ArmPattern, vt: ValueAndType)
    ensures hide *; Matches(p, vt).Some? ==> Matches(p, vt).value.Keys <= Binders(p)
    decreases p
  {
    hide LiteralOf, MatchesFields, InCase;
    match p
    case As(_, q) => MatchBinds(q, vt);
    case Constructor(name, ps) =>
      if ps != [] && InCase(name, vt).Some? && InCase(name, vt).value.Some? {
        MatchBinds(ps[0], InCase(name, vt).value.value);
      }
    case TupleConstructor(ps) =>
      if vt.value.VTuple? && vt.typ.WTuple? && |ps| <= |vt.value.items| && |ps| <= |vt.typ.items| {
        ItemsBind(ps, vt.value.items, vt.typ.items);
      }
    case RecordConstructor(fps) =>
      if vt.value.VRecord? && vt.typ.WRecord? && |vt.value.items| == |vt.typ.fields| {
        FieldsBind(fps, vt.value.items, vt.typ.fields);
      }
    case _ =>
  }

  lemma {:induction false} ItemsBind(ps: seq<ArmPattern>, items: seq<Value>, types: seq<WitType>)
    requires hide *; |ps| <= |items| && |ps| <= |types|
    ensures MatchesItems(ps, items, types).Some? ==> MatchesItems(ps, items, types).value.Keys <= AllBinders(ps)
    decreases ps
  {
    hide Binders, Matches;
    if ps != [] {
      MatchBinds(ps[0], VT(items[0], types[0]));
      ItemsBind(ps[1..], items[1..], types[1..]);
    }
  }

  lemma {:induction false} FieldsBind(fps: seq<Field<ArmPattern>>, items: seq<Value>, fields: seq<Field<WitType>>)
    requires hide *; |items| == |fields|
    ensures MatchesFields(fps, items, fields).Some? ==> MatchesFields(fps, items, fields).value.Keys <= FieldBinders(fps)
    decreases fps
  {
    hide Binders, Matches;
    if fps != [] && FieldIndex(fields, fps[0].name).Some? {
      var i := FieldIndex(fields, fps[0].name).value;
      MatchBinds(fps[0].of, VT(items[i], fields[i].of));
      FieldsBind(fps[1..], items, fields);
    }
  }

  // ---------- what the code decides ----------

  /** An arm is taken with these variables, or not taken, or testing it is an error. */
  datatype Verdict = Taken(m: Bindings) | Skipped | Broken

  function TakenIf(b: bool, m: Bindings): Verdict { if b then Taken(m) else Skipped }

  function VerdictOf(m: Option<Bindings>): Verdict { if m.Some? then Taken(m.value) else Skipped }

  /** One test after the other, until one does not hold. */
  function AndThen(a: Verdict, b: Verdict): Verdict {
    if !a.Taken? then a else if b.Taken? then Taken(a.m + b.m) else b
  }

  /** The payload, whatever the case. */
  function Unwrapped(u: Option<ValueAndType>): Option<ValueAndType> {
    hide *;
    if u.None? then None else
    match UnwrapValue(Val(u.value))
    case Some(Val(x)) => Some(x)
    case _ => None
  }

  /** The verdict on a pattern when b says whether the tags of the enclosing constructors have been found, and u is what the
      scrutinee, with its enclosing cases unwrapped, evaluates to (if it does). A plain literal asks for the value without
      asking for the tags. */
  function Decides(p: ArmPattern, b: bool, u: Option<ValueAndType>): Verdict
    decreases p
  {
    hide *;
    match p
    case WildCard => TakenIf(b, map[])
    case LiteralPattern(lit) => DecidesLiteral(lit, b, u)
    case As(name, q) =>
      var d := Decides(q, b, u);
      if !d.Taken? then d else if u.Some? then Taken(d.m[Global(name) := Val(u.value)]) else Broken
    case Constructor(name, ps) =>
      var here := b && u.Some? && TagName(u.value) == Some(name);
      if ps == [] then TakenIf(here, map[]) else Decides(ps[0], here, Unwrapped(u))
    case TupleConstructor(ps) =>
      if !b then Skipped else
      (match u
       case Some(VT(VTuple(items), WTuple(types))) =>
         if |ps| <= |items| && |ps| <= |types| then DecidesItems(ps, items, types) else Skipped
       case _ => Skipped)
    case RecordConstructor(fps) =>
      if !b then Skipped else
      (match u
       case Some(VT(VRecord(items), WRecord(fields))) => if |items| == |fields| then DecidesFields(fps, items, fields) else Skipped
       case _ => Skipped)
    case ListConstructor(_) => Skipped
  }

  function DecidesLiteral(lit: Expr, b: bool, u: Option<ValueAndType>): Verdict {
    hide LiteralOf, GetLiteral, EnumCase;
    if IsIdentifier(lit) then
      if b && u.Some? then Taken(map[lit.kind.leaf.variable := Val(u.value)]) else Skipped
    else if IsEnum(lit) then TakenIf(b && u.Some? && EnumCase(u.value) == Some(lit.kind.callType.enum_), map[])
    else if u.None? || GetLiteral(u.value).None? then Broken
    else TakenIf(GetLiteral(u.value) == LiteralOf(lit), map[])
  }

  function DecidesItems(ps: seq<ArmPattern>, items: seq<Value>, types: seq<WitType>): Verdict
    requires hide *; |ps| <= |items| && |ps| <= |types|
    decreases ps
  {
    if ps == [] then Taken(map[])
    else AndThen(Decides(ps[0], true, Some(VT(items[0], types[0]))), DecidesItems(ps[1..], items[1..], types[1..]))
  }

  function DecidesFields(fps: seq<Field<ArmPattern>>, items: seq<Value>, fields: seq<Field<WitType>>): Verdict
    requires hide *; |items| == |fields|
    decreases fps
  {
    if fps == [] then Taken(map[]) else
    var i := FieldIndex(fields, fps[0].name);
    AndThen(if i.None? then Skipped else Decides(fps[0].of, true, Some(VT(items[i.value], fields[i.value].of))),
         DecidesFields(fps[1..], items, fields))
  }

  lemma {:induction false} NoValueNotTaken(p: ArmPattern)
    ensures !Decides(p, false, None).Taken?
    decreases p
  {
    hide DecidesFields, DecidesItems, LiteralOf, TagName;
    match p
    case As(_, q) => NoValueNotTaken(q);
    case Constructor(_, ps) =>
      if ps != [] {
        NoValueNotTaken(ps[0]);
      }
    case _ =>
  }

  // ---------- arms ----------

  /** The arm with its variables, or none, or an error. */
  datatype Choice = Goes(arm: nat, m: Bindings) | NoArm | Error

  function Later(c: Choice): Choice { if c.Goes? then Goes(c.arm + 1, c.m) else c }

  /** The first arm that fits. */
  function Meant(arms: seq<MatchArm>, vt: ValueAndType): (c: Choice)
    ensures hide *; c.Goes? ==> c.arm < |arms|
    ensures !c.Error?
  {
    if arms == [] then NoArm else
    var m := Matches(arms[0].pattern, vt);
    if m.Some? then Goes(0, m.value) else Later(Meant(arms[1..], vt))
  }

  /** The first arm that is not skipped. */
  function Chosen(arms: seq<MatchArm>, vt: ValueAndType): (c: Choice)
    ensures hide *; c.Goes? ==> c.arm < |arms|
  {
    if arms == [] then NoArm else
    match Decides(arms[0].pattern, true, Some(vt))
    case Taken(m) => Goes(0, m)
    case Broken => Error
    case Skipped => Later(Chosen(arms[1..], vt))
  }

  /** The verdict on the pattern is what the pattern means. */
  predicate Right(p: ArmPattern, vt: ValueAndType) { Decides(p, true, Some(vt)) == VerdictOf(Matches(p, vt)) }

  /** No arm before fits. */
  ghost predicate Reached(arms: seq<MatchArm>, vt: ValueAndType, i: nat)
    requires hide *; i < |arms|
  {
    forall k :: 0 <= k < i ==> Matches(arms[k].pattern, vt).None?
  }

  /** The arm that is chosen is the one that is meant, exactly if the code is right about every arm up to that one. */
  lemma {:induction false} ChosenIsMeant(arms: seq<MatchArm>, vt: ValueAndType)
    ensures hide *; Chosen(arms, vt) == Meant(arms, vt)
            <==> forall i :: 0 <= i < |arms| && Reached(arms, vt, i) ==> Right(arms[i].pattern, vt)
    decreases |arms|
  {
    hide Matches, Decides;
    if arms != [] {
      var rest := arms[1..];
      ChosenIsMeant(rest, vt);
      assert Reached(arms, vt, 0);
      if Matches(arms[0].pattern, vt).None? {
        forall i | 0 <= i < |rest| ensures Reached(rest, vt, i) <==> Reached(arms, vt, i + 1) {
          if Reached(arms, vt, i + 1) {
            forall k | 0 <= k < i ensures Matches(rest[k].pattern, vt).None? {
              assert arms[k + 1] == rest[k];
            }
          }
          if Reached(rest, vt, i) {
            forall k | 0 < k < i + 1 ensures Matches(arms[k].pattern, vt).None? {
              assert arms[k] == rest[k - 1];
            }
          }
        }
        if forall i :: 0 <= i < |rest| && Reached(rest, vt, i) ==> Right(rest[i].pattern, vt) {
          forall i | 0 < i < |arms| && Reached(arms, vt, i) ensures Right(arms[i].pattern, vt) {
            assert rest[i - 1] == arms[i];
          }
        } else {
          var i :| 0 <= i < |rest| && Reached(rest, vt, i) && !Right(rest[i].pattern, vt);
          assert Reached(arms, vt, i + 1) && !Right(arms[i + 1].pattern, vt);
        }
      }
    }
  }

  // ---------- expressions that do not change ----------

  /** The same variables, except for some. */
  ghost predicate Agree(a: Env, b: Env, except: set<VariableId>) {
    forall v :: v !in except ==> (v in a <==> v in b) && (v in a && v in b ==> a[v] == b[v])
  }

  /** The expression has this value whatever the exceptional variables are, and evaluating it has no effect. */
  ghost predicate Steady<H(!new)>(w: World<H>, e: Expr, v: StackValue, env: Env, except: set<VariableId>) {
    forall other: Env, h: H :: Agree(other, env, except) ==> Eval(w, e, other, h) == Done(Some(v), other, h)
  }

  lemma SteadyVariable<H(!new)>(w: World<H>, e: Expr, env: Env, except: set<VariableId>)
    requires hide *; e.kind.Atom? && e.kind.leaf.Identifier?
    requires var x := e.kind.leaf.variable; x in env && x !in except && Plainish(env[x])
    ensures Steady(w, e, env[e.kind.leaf.variable], env, except)
  {
    hide Eval, EvalAll, BinaryValue, UnaryValue, CallValue, ListValue, WitOf;
    forall other: Env, h: H | Agree(other, env, except)
      ensures Eval(w, e, other, h) == Done(Some(env[e.kind.leaf.variable]), other, h)
    {
      EvalStrict(w, e, other, h);
      EvalNone(w, other, h);
      assert Ops(e) == [] && Reverse<StackValue>([]) == [];
    }
  }

  // ===== The nested conditionals that a match is rewritten to: which arm they choose, and when that is the arm that
  // is meant.

  // ---------- operators on one value ----------

  lemma {:induction false} EvalUnaryStep<H>(w: World<H>, e: Expr, env: Env, h: H)
    requires hide Eval, UnaryValue; e.kind.Unary?
    ensures var o := Eval(w, e.kind.arg, env, h);
            Eval(w, e, env, h)
            == if !Gives(o) then Fault(o.h) else
               var u := UnaryValue(e.kind.unary, e.ty, o.v.value);
               if u.None? then Fault(o.h) else Done(u, o.env, o.h)
  {
    hide Eval, EvalAll, UnaryValue, BinaryValue, LeafValue, CallValue, RecordValue;
    EvalStrict(w, e, env, h);
    assert Ops(e) == [] + [e.kind.arg];
    EvalLastOperand(w, [], e.kind.arg, env, h);
    EvalNone(w, env, h);
    var o := Eval(w, e.kind.arg, env, h);
    if Gives(o) {
      assert Reverse([] + [o.v.value]) == [o.v.value];
    }
  }

  /** A comparison with something that is evaluated first and has no effect. */
  lemma {:induction false} EvalEqualsStep<H>(w: World<H>, l: Expr, r: Expr, u: StackValue, env: Env, h: H)
    requires hide Eval, CompareTyped, CompareValues, MkEq; Eval(w, r, env, h) == Done(Some(u), env, h)
    ensures var o := Eval(w, l, env, h);
            Eval(w, MkEq(l, r), env, h)
            == if !Gives(o) then Fault(o.h) else
               var c := CompareValues(EqualTo, o.v.value, u);
               if c.None? then Fault(o.h) else Done(c, o.env, o.h)
  {
    hide Eval, EvalAll, CompareTyped, CallValue;
    var e := MkEq(l, r);
    EvalStrict(w, e, env, h);
    assert Ops(e) == ([] + [r]) + [l];
    EvalLastOperand(w, [] + [r], l, env, h);
    EvalLastOperand(w, [], r, env, h);
    EvalNone(w, env, h);
    var o := Eval(w, l, env, h);
    if Gives(o) {
      assert Reverse(([] + [u]) + [o.v.value]) == [o.v.value, u];
    }
  }

  lemma {:induction false} EvalSelectStep<H>(w: World<H>, l: Expr, i: Expr, u: StackValue, env: Env, h: H)
    requires hide Eval, SelectItem, Weight; Eval(w, i, env, h) == Done(Some(u), env, h) && !i.ty.inner.TRange?
    ensures var o := Eval(w, l, env, h);
            Eval(w, Mk(SelectIndex(l, i)), env, h)
            == if !Gives(o) then Fault(o.h) else
               var c := SelectItem(o.v.value, u);
               if c.None? then Fault(o.h) else Done(c, o.env, o.h)
  {
    hide Eval, EvalAll, SelectItem, UnaryValue, ListValue;
    var e := Mk(SelectIndex(l, i));
    EvalStrict(w, e, env, h);
    assert Ops(e) == ([] + [i]) + [l];
    EvalLastOperand(w, [] + [i], l, env, h);
    EvalLastOperand(w, [], i, env, h);
    EvalNone(w, env, h);
    var o := Eval(w, l, env, h);
    if Gives(o) {
      assert Reverse(([] + [u]) + [o.v.value]) == [o.v.value, u];
    }
  }

  lemma {:induction false} EvalLeaf<H>(w: World<H>, e: Expr, env: Env, h: H)
    requires hide *; e.kind.Atom?
    ensures Eval(w, e, env, h) == match LeafValue(w, e.kind.leaf, e.ty, env, h)
                                  case Answer(v, h2) => Done(Some(v), env, h2)
                                  case NoAnswer(h2) => Fault(h2)
  {
    hide Eval, EvalAll, LeafValue, BinaryValue, UnaryValue, CallValue, ListValue, WitOf, SelectItem;
    EvalStrict(w, e, env, h);
    EvalNone(w, env, h);
    assert Ops(e) == [] && Reverse<StackValue>([]) == [];
  }

  // ---------- steady parts of a steady value ----------

  ghost predicate SteadyBool<H(!new)>(w: World<H>, e: Expr, b: bool, env: Env, except: set<VariableId>) {
    Steady(w, e, MkVal(b), env, except)
  }

  lemma SteadyUnary<H(!new)>(w: World<H>, e: Expr, v: StackValue, u: StackValue, env: Env, except: set<VariableId>)
    requires hide *;
             e.kind.Unary? && Steady(w, e.kind.arg, v, env, except) && UnaryValue(e.kind.unary, e.ty, v) == Some(u)
    ensures Steady(w, e, u, env, except)
  {
    hide Eval, UnaryValue, Agree;
    forall other: Env, h: H | Agree(other, env, except) ensures Eval(w, e, other, h) == Done(Some(u), other, h) {
      EvalUnaryStep(w, e, other, h);
    }
  }

  lemma SteadyEquals<H(!new)>(w: World<H>, l: Expr, r: Expr, v: StackValue, u: StackValue, b: bool, env: Env, except: set<VariableId>)
    requires Steady(w, l, v, env, except) && Steady(w, r, u, env, except) && CompareValues(EqualTo, v, u) == Some(MkVal(b))
    ensures SteadyBool(w, MkEq(l, r), b, env, except)
  {
    hide Eval, CompareValues, Agree;
    forall other: Env, h: H | Agree(other, env, except) ensures Eval(w, MkEq(l, r), other, h) == Done(Some(MkVal(b)), other, h) {
      EvalEqualsStep(w, l, r, u, other, h);
    }
  }

  lemma SteadyString<H(!new)>(w: World<H>, s: string, env: Env, except: set<VariableId>)
    ensures Steady(w, MkLit(s), Val(StrVT(s)), env, except)
  {
    hide Eval, Agree, WitOf, Weight, AsInstanceVariable;
    forall other: Env, h: H | Agree(other, env, except) ensures Eval(w, MkLit(s), other, h) == Done(Some(Val(StrVT(s))), other, h) {
      EvalLeaf(w, MkLit(s), other, h);
    }
  }

  lemma SteadyTrue<H(!new)>(w: World<H>, b: bool, env: Env, except: set<VariableId>)
    ensures SteadyBool(w, MkBool(b), b, env, except)
  {
    hide Eval, Agree, WitOf, NumberAs, AsInstanceVariable;
    forall other: Env, h: H | Agree(other, env, except) ensures Eval(w, MkBool(b), other, h) == Done(Some(MkVal(b)), other, h) {
      EvalLeaf(w, MkBool(b), other, h);
    }
  }

  lemma TruthOfBool(b: bool)
    ensures Truth(MkVal(b)) == Some(b)
  {
  }

  lemma ComparesStrings(s: string, t: string)
    ensures CompareValues(EqualTo, Val(StrVT(s)), Val(StrVT(t))) == Some(MkVal(s == t))
  {
  }

  lemma SteadyTagTest<H(!new)>(w: World<H>, pred: Expr, name: string, vt: ValueAndType, tag: string, env: Env, except: set<VariableId>)
    requires Steady(w, pred, Val(vt), env, except) && TagName(vt) == Some(tag)
    ensures SteadyBool(w, Desugar.TagTest(pred, name), tag == name, env, except)
  {
    hide Steady, TagName, CompareValues, WitOf, SelectFieldOf, UnwrapValue, MkLit;
    SteadyUnary(w, MkTag(pred), Val(vt), Val(StrVT(tag)), env, except);
    SteadyString(w, name, env, except);
    ComparesStrings(tag, name);
    SteadyEquals(w, MkTag(pred), MkLit(name), Val(StrVT(tag)), Val(StrVT(name)), tag == name, env, except);
  }

  lemma SteadyField<H(!new)>(w: World<H>, pred: Expr, name: string, vt: ValueAndType, u: ValueAndType, env: Env, except: set<VariableId>)
    requires Steady(w, pred, Val(vt), env, except) && SelectFieldOf(name, Val(vt)) == Some(Val(u))
    ensures Steady(w, Desugar.FieldAt(pred, name), Val(u), env, except)
  {
    hide Steady, SelectFieldOf, TagOf, WitOf;
    SteadyUnary(w, Desugar.FieldAt(pred, name), Val(vt), Val(u), env, except);
  }

  lemma SteadyItem<H(!new)>(w: World<H>, pred: Expr, i: nat, vt: ValueAndType, env: Env, except: set<VariableId>)
    requires hide *; Steady(w, pred, Val(vt), env, except) && i <= MaxOf(U64)
    requires vt.value.VTuple? && vt.typ.WTuple? && i < |vt.value.items| && i < |vt.typ.items|
    ensures Steady(w, Desugar.ItemAt(pred, i), Val(VT(vt.value.items[i], vt.typ.items[i])), env, except)
  {
    hide Eval, Agree, SelectItem;
    var index := Desugar.ItemAt(pred, i).kind.index;
    var u := Val(VT(VNum(U64, i as real), WNum(U64)));
    var item := Val(VT(vt.value.items[i], vt.typ.items[i]));
    SelectsItem(vt, i);
    forall other: Env, h: H | Agree(other, env, except) ensures Eval(w, Desugar.ItemAt(pred, i), other, h) == Done(Some(item), other, h) {
      EvalLeaf(w, index, other, h);
      EvalSelectStep(w, pred, index, u, other, h);
    }
  }

  lemma SelectsItem(vt: ValueAndType, i: nat)
    requires hide *; vt.value.VTuple? && vt.typ.WTuple? && i < |vt.value.items| && i < |vt.typ.items|
    ensures SelectItem(Val(vt), Val(VT(VNum(U64, i as real), WNum(U64)))) == Some(Val(VT(vt.value.items[i], vt.typ.items[i])))
  {
  }

  // ---------- expressions that fail ----------

  ghost predicate SteadyFault<H(!new)>(w: World<H>, e: Expr, env: Env, except: set<VariableId>) {
    forall other: Env, h: H :: Agree(other, env, except) ==> Eval(w, e, other, h) == Fault(h)
  }

  /** The value of an expression, or that it has none. */
  ghost predicate Is<H(!new)>(w: World<H>, e: Expr, u: Option<ValueAndType>, env: Env, except: set<VariableId>) {
    hide *;
    if u.Some? then Steady(w, e, Val(u.value), env, except) else SteadyFault(w, e, env, except)
  }

  lemma UnwrapIs<H(!new)>(w: World<H>, pred: Expr, u: Option<ValueAndType>, env: Env, except: set<VariableId>)
    requires Is(w, pred, u, env, except)
    ensures Is(w, MkUnwrap(pred), Unwrapped(u), env, except)
  {
    hide Eval, UnwrapValue, Agree, WitOf, TagOf;
    forall other: Env, h: H | Agree(other, env, except)
      ensures Eval(w, MkUnwrap(pred), other, h)
              == if Unwrapped(u).Some? then Done(Some(Val(Unwrapped(u).value)), other, h) else Fault(h)
    {
      EvalUnaryStep(w, MkUnwrap(pred), other, h);
      if u.Some? {
        UnwrapsToValue(u.value);
      }
    }
  }

  lemma UnwrapsToValue(vt: ValueAndType)
    ensures hide *; UnwrapValue(Val(vt)).Some? ==> UnwrapValue(Val(vt)).value.Val?
  {
  }

  /** The expression tests what the verdict says: true when the arm is taken, false when it is skipped. */
  ghost predicate Tests<H(!new)>(w: World<H>, e: Expr, d: Verdict, env: Env, except: set<VariableId>) {
    if d.Broken? then SteadyFault(w, e, env, except) else SteadyBool(w, e, d.Taken?, env, except)
  }

  /** The right side is only reached when the left one holds. */
  lemma TestsAnd<H(!new)>(w: World<H>, l: Expr, r: Expr, a: Verdict, c: Verdict, env: Env, except: set<VariableId>)
    requires Tests(w, l, a, env, except) && (a.Taken? ==> Tests(w, r, c, env, except))
    ensures Tests(w, MkAnd(l, r), AndThen(a, c), env, except)
  {
    hide Eval, Agree, Truth;
    forall other: Env, h: H | Agree(other, env, except)
      ensures Eval(w, MkAnd(l, r), other, h)
              == if AndThen(a, c).Broken? then Fault(h) else Done(Some(MkVal(AndThen(a, c).Taken?)), other, h)
    {
      EvalLogical(w, MkAnd(l, r), other, h);
      TruthOfBool(a.Taken?);
      TruthOfBool(c.Taken?);
    }
  }

  // ---------- branches ----------

  /** The condition tests whether the arm is taken; then the body binds its variables and goes on with the resolution. */
  ghost predicate BranchMeans<H(!new)>(w: World<H>, b: Desugar.Branch, res: Expr, d: Verdict, env: Env, except: set<VariableId>) {
    hide *;
    && Tests(w, b.condition, d, env, except)
    && (d.Taken? ==> d.m.Keys <= except && Binds(w, b.body, res, d.m, env, except))
  }

  ghost predicate Binds<H(!new)>(w: World<H>, body: Expr, res: Expr, m: Bindings, env: Env, except: set<VariableId>) {
    forall other: Env, h: H :: Agree(other, env, except) ==> Eval(w, body, other, h) == Eval(w, res, other + m, h)
  }

  ghost predicate TagHolds<H(!new)>(w: World<H>, tag: Option<Expr>, b: bool, env: Env, except: set<VariableId>) {
    hide *;
    if tag.Some? then SteadyBool(w, tag.value, b, env, except) else b
  }

  function If(b: bool, d: Verdict): Verdict { if b then d else Skipped }

  lemma {:induction false} AgreeAfter(other: Env, env: Env, m: Bindings, except: set<VariableId>)
    requires Agree(other, env, except) && m.Keys <= except
    ensures Agree(other + m, env, except)
  {
  }

  lemma OrTrueMeans<H(!new)>(w: World<H>, tag: Option<Expr>, b: bool, env: Env, except: set<VariableId>)
    requires TagHolds(w, tag, b, env, except)
    ensures SteadyBool(w, Desugar.OrTrue(tag), b, env, except)
  {
    hide Steady, SteadyBool;
    if tag.None? {
      SteadyTrue(w, true, env, except);
    }
  }

  lemma UnderMeans<H(!new)>(w: World<H>, tag: Option<Expr>, cond: Expr, b: bool, d: Verdict, env: Env, except: set<VariableId>)
    requires TagHolds(w, tag, b, env, except) && (b ==> Tests(w, cond, d, env, except))
    ensures Tests(w, Desugar.Under(tag, cond), If(b, d), env, except)
  {
    hide Steady, SteadyFault, SteadyBool;
    if tag.Some? {
      TestsAnd(w, tag.value, cond, TakenIf(b, map[]), d, env, except);
    }
  }

  /** Binding a steady value in front of something. */
  lemma LetThen<H(!new)>(w: World<H>, binding: Expr, res: Expr, v: StackValue, env: Env, h: H)
    requires hide *; binding.kind.Let? && Eval(w, binding.kind.bound, env, h) == Done(Some(v), env, h)
    ensures Eval(w, MkBlock([binding, res]), env, h) == Eval(w, res, env[binding.kind.variable := v], h)
  {
    hide Eval, EvalBlock, Discipline, BlockDiscipline, Weight, WeightAll;
    BlockMeaning(w, MkBlock([binding, res]), env, h);
    assert [binding, res] == ([] + [binding]) + [res];
    EvalLastStatement(w, [] + [binding], res, env, h);
    EvalLastStatement(w, [], binding, env, h);
    EmptyMeaning(w, env, h);
    LetMeaning(w, binding, env, h);
  }

  lemma BindsNothing<H(!new)>(w: World<H>, res: Expr, env: Env, except: set<VariableId>)
    ensures Binds(w, res, res, map[], env, except)
  {
    hide Eval, Agree;
    forall other: Env, h: H | Agree(other, env, except) ensures Eval(w, res, other, h) == Eval(w, res, other + map[], h) {
      assert other + map[] == other;
    }
  }

  /** A binding in front of the resolution is made after those of the inner pattern. */
  lemma BindsOneMore<H(!new)>(w: World<H>, body: Expr, binding: Expr, res: Expr, m: Bindings, v: StackValue, env: Env, except: set<VariableId>)
    requires hide *; binding.kind.Let? && Steady(w, binding.kind.bound, v, env, except)
    requires Binds(w, body, MkBlock([binding, res]), m, env, except) && m.Keys <= except
    ensures Binds(w, body, res, m[binding.kind.variable := v], env, except)
  {
    hide Eval, Agree;
    var x := binding.kind.variable;
    forall other: Env, h: H | Agree(other, env, except) ensures Eval(w, body, other, h) == Eval(w, res, other + m[x := v], h) {
      AgreeAfter(other, env, m, except);
      LetThen(w, binding, res, v, other + m, h);
      assert (other + m)[x := v] == other + m[x := v];
    }
  }

  lemma BlockBinds<H(!new)>(w: World<H>, binding: Expr, res: Expr, v: StackValue, env: Env, except: set<VariableId>)
    requires hide *; binding.kind.Let? && Steady(w, binding.kind.bound, v, env, except)
    ensures Binds(w, MkBlock([binding, res]), res, map[binding.kind.variable := v], env, except)
  {
    hide Eval, Agree;
    BindsNothing(w, MkBlock([binding, res]), env, except);
    BindsOneMore(w, MkBlock([binding, res]), binding, res, map[], v, env, except);
    assert map[][binding.kind.variable := v] == map[binding.kind.variable := v];
  }

  // ---------- several parts ----------

  ghost predicate BranchesMean<H(!new)>(w: World<H>, bs: seq<Desugar.Branch>, ds: seq<Verdict>, env: Env, except: set<VariableId>) {
    hide *;
    |bs| == |ds| && forall k :: 0 <= k < |bs| ==> BranchMeans(w, bs[k], MkLit(""), ds[k], env, except)
  }

  /** All tests in a row; later bindings win. */
  function AllOf(ds: seq<Verdict>): Verdict {
    if ds == [] then Taken(map[]) else AndThen(ds[0], AllOf(ds[1..]))
  }

  lemma ThenAssociates(a: Verdict, b: Verdict, c: Verdict)
    ensures AndThen(AndThen(a, b), c) == AndThen(a, AndThen(b, c))
  {
    if a.Taken? && b.Taken? && c.Taken? {
      assert (a.m + b.m) + c.m == a.m + (b.m + c.m);
    }
  }

  lemma NothingFirst(d: Verdict)
    ensures AndThen(Taken(map[]), d) == d && AndThen(d, Taken(map[])) == d
  {
    if d.Taken? {
      assert map[] + d.m == d.m && d.m + map[] == d.m;
    }
  }

  lemma TailMeans<H(!new)>(w: World<H>, bs: seq<Desugar.Branch>, ds: seq<Verdict>, env: Env, except: set<VariableId>)
    requires hide Binds, Tests; BranchesMean(w, bs, ds, env, except) && bs != []
    ensures BranchMeans(w, bs[0], MkLit(""), ds[0], env, except) && BranchesMean(w, bs[1..], ds[1..], env, except)
  {
    hide BranchMeans;
  }

  lemma {:induction false} AndAllMeans<H(!new)>(w: World<H>, first: Expr, d: Verdict, bs: seq<Desugar.Branch>, ds: seq<Verdict>,
                                                env: Env, except: set<VariableId>)
    requires BranchesMean(w, bs, ds, env, except) && Tests(w, first, d, env, except)
    ensures Tests(w, Desugar.AndAll(first, bs), AndThen(d, AllOf(ds)), env, except)
    decreases |bs|
  {
    hide Tests, BranchesMean, Binds, AndThen;
    VerdictsLength(w, bs, ds, env, except);
    if bs == [] {
      NothingFirst(d);
    } else {
      TailMeans(w, bs, ds, env, except);
      TestsAnd(w, first, bs[0].condition, d, ds[0], env, except);
      AndAllMeans(w, MkAnd(first, bs[0].condition), AndThen(d, ds[0]), bs[1..], ds[1..], env, except);
      ThenAssociates(d, ds[0], AllOf(ds[1..]));
    }
  }

  lemma VerdictsLength<H(!new)>(w: World<H>, bs: seq<Desugar.Branch>, ds: seq<Verdict>, env: Env, except: set<VariableId>)
    requires BranchesMean(w, bs, ds, env, except)
    ensures |bs| == |ds|
  {
    hide BranchMeans;
  }

  lemma {:induction false} EvalFirstStatement<H>(w: World<H>, x: Expr, rest: seq<Expr>, env: Env, h: H)
    requires rest != []
    ensures EvalBlock(w, [x] + rest, env, h)
            == match Eval(w, x, env, h)
               case Fault(h1) => Fault(h1)
               case Done(_, env1, h1) => EvalBlock(w, rest, env1, h1)
    decreases |rest|
  {
    hide Eval, EvalBlock;
    var front, last := rest[..|rest| - 1], rest[|rest| - 1];
    assert [x] + rest == ([x] + front) + [last] && rest == front + [last];
    EvalLastStatement(w, [x] + front, last, env, h);
    if front == [] {
      assert [x] + front == [] + [x];
      EvalLastStatement(w, [], x, env, h);
      EmptyMeaning(w, env, h);
      var o := Eval(w, x, env, h);
      if o.Done? {
        EvalLastStatement(w, front, last, o.env, o.h);
        EmptyMeaning(w, o.env, o.h);
      }
    } else {
      EvalFirstStatement(w, x, front, env, h);
      var o := Eval(w, x, env, h);
      if o.Done? {
        EvalLastStatement(w, front, last, o.env, o.h);
      }
    }
  }

  /** The bodies bind one after the other; the empty strings they end in are not looked at. */
  lemma {:induction false} BodiesBind<H(!new)>(w: World<H>, bs: seq<Desugar.Branch>, ds: seq<Verdict>, res: Expr,
                                               env: Env, except: set<VariableId>, other: Env, h: H)
    requires hide *; BranchesMean(w, bs, ds, env, except) && AllOf(ds).Taken? && Agree(other, env, except)
    ensures AllOf(ds).m.Keys <= except
    ensures EvalBlock(w, Desugar.Bodies(bs) + [res], other, h) == Eval(w, res, other + AllOf(ds).m, h)
    decreases |bs|
  {
    hide Eval, EvalBlock, BranchesMean, Tests, Agree, Binds, MkLit, StrVT;
    VerdictsLength(w, bs, ds, env, except);
    if bs == [] {
      assert Desugar.Bodies(bs) + [res] == [] + [res];
      EvalLastStatement(w, [], res, other, h);
      EmptyMeaning(w, other, h);
      assert other + map[] == other;
    } else {
      TailMeans(w, bs, ds, env, except);
      var m := ds[0].m;
      AgreeAfter(other, env, m, except);
      var rest := Desugar.Bodies(bs[1..]) + [res];
      assert Desugar.Bodies(bs) + [res] == [bs[0].body] + rest;
      EvalFirstStatement(w, bs[0].body, rest, other, h);
      BodyBinds(w, bs[0].body, m, env, except, other, h);
      BodiesBind(w, bs[1..], ds[1..], res, env, except, other + m, h);
      assert (other + m) + AllOf(ds[1..]).m == other + AllOf(ds).m;
    }
  }

  lemma BodyBinds<H(!new)>(w: World<H>, body: Expr, m: Bindings, env: Env, except: set<VariableId>, other: Env, h: H)
    requires Binds(w, body, MkLit(""), m, env, except) && Agree(other, env, except)
    ensures Eval(w, body, other, h) == Done(Some(Val(StrVT(""))), other + m, h)
  {
    hide Eval, Agree, WitOf, Weight, AsInstanceVariable;
    EvalLeaf(w, MkLit(""), other + m, h);
  }

  lemma CombinedMeans<H(!new)>(w: World<H>, bs: seq<Desugar.Branch>, ds: seq<Verdict>, res: Expr, tag: Option<Expr>, b: bool,
                               env: Env, except: set<VariableId>)
    requires hide *; bs != [] && TagHolds(w, tag, b, env, except) && (b ==> BranchesMean(w, bs, ds, env, except))
    ensures Desugar.Combined(bs, res, tag).Some?
    ensures BranchMeans(w, Desugar.Combined(bs, res, tag).value, res, If(b, AllOf(ds)), env, except)
  {
    hide Eval, BranchesMean, Agree, Steady, SteadyFault, AllOf;
    var all := Desugar.AndAll(MkBool(true), bs);
    if b {
      SteadyTrue(w, true, env, except);
      AndAllMeans(w, MkBool(true), Taken(map[]), bs, ds, env, except);
      NothingFirst(AllOf(ds));
    }
    UnderMeans(w, tag, all, b, AllOf(ds), env, except);
    if b && AllOf(ds).Taken? {
      CombinedBinds(w, bs, ds, res, env, except);
    }
  }

  lemma CombinedBinds<H(!new)>(w: World<H>, bs: seq<Desugar.Branch>, ds: seq<Verdict>, res: Expr, env: Env, except: set<VariableId>)
    requires hide *; BranchesMean(w, bs, ds, env, except) && AllOf(ds).Taken?
    ensures AllOf(ds).m.Keys <= except
    ensures Binds(w, MkBlock(Desugar.Bodies(bs) + [res]), res, AllOf(ds).m, env, except)
  {
    hide Eval, EvalBlock, BranchesMean, Agree, AllOf, Discipline, BlockDiscipline, Weight, WeightAll;
    var block := MkBlock(Desugar.Bodies(bs) + [res]);
    forall other: Env, h: H | Agree(other, env, except)
      ensures Eval(w, block, other, h) == Eval(w, res, other + AllOf(ds).m, h)
    {
      BlockMeaning(w, block, other, h);
      BodiesBind(w, bs, ds, res, env, except, other, h);
    }
    BodiesKeys(w, bs, ds, env, except);
  }

  lemma {:induction false} BodiesKeys<H(!new)>(w: World<H>, bs: seq<Desugar.Branch>, ds: seq<Verdict>, env: Env, except: set<VariableId>)
    requires hide *; BranchesMean(w, bs, ds, env, except) && AllOf(ds).Taken?
    ensures AllOf(ds).m.Keys <= except
    decreases |bs|
  {
    hide BranchesMean, Tests, Binds;
    VerdictsLength(w, bs, ds, env, except);
    if bs != [] {
      TailMeans(w, bs, ds, env, except);
      BodiesKeys(w, bs[1..], ds[1..], env, except);
    }
  }

  // ---------- cases of values ----------

  lemma FindsCase(cases: seq<Field<Option<InferredType>>>, i: nat)
    requires i < |cases| && NoRepeats(CaseNamesOf(cases))
    ensures Desugar.FindCase(cases, cases[i].name) == Some(cases[i].of)
  {
    if i > 0 {
      assert CaseNamesOf(cases)[0] != CaseNamesOf(cases)[i];
      assert CaseNamesOf(cases[1..]) == CaseNamesOf(cases)[1..];
      FindsCase(cases[1..], i - 1);
    }
  }

  /** The type of the payload that the rewriting takes for a constructor. */
  function PayloadType(name: string, ty: InferredType): Option<InferredType> {
    match ty.inner
    case TVariant(cases) => var found := Desugar.FindCase(cases, name); if found.Some? then found.value else None
    case TOption(inner) => if name == "some" then Some(inner) else None
    case TResult(ok, error) => if name == "ok" then ok else if name == "err" then error else None
    case _ => None
  }

  /** A value whose tag is the name of the constructor has a payload of the right type; otherwise it is in another case. */
  lemma {:induction false} CaseFacts(name: string, vt: ValueAndType, ty: InferredType)
    requires hide *; HasShape(vt.value, vt.typ, ty) && PayloadType(name, ty).Some?
    ensures TagName(vt).Some?
    ensures TagName(vt).value != name ==> InCase(name, vt).None?
    ensures TagName(vt).value == name ==>
      && InCase(name, vt).Some? && InCase(name, vt).value.Some?
      && var u := InCase(name, vt).value.value;
         UnwrapValue(Val(vt)) == Some(Val(u)) && HasShape(u.value, u.typ, PayloadType(name, ty).value)
  {
    hide Desugar.FindCase;
    match ty.inner
    case TVariant(cases) =>
      var i := vt.value.idx;
      FindsCase(cases, i);
      assert vt.typ.variants[i].name == cases[i].name;
    case TOption(_) =>
    case TResult(_, _) =>
  }

  lemma NoneFacts(vt: ValueAndType, ty: InferredType)
    requires hide *; HasShape(vt.value, vt.typ, ty) && ty.inner.TOption?
    ensures TagName(vt).Some?
    ensures InCase("none", vt) == if TagName(vt).value == "none" then Some(None) else None
  {
  }

  lemma EnumFacts(vt: ValueAndType, ty: InferredType)
    requires HasShape(vt.value, vt.typ, ty) && ty.inner.TEnum?
    ensures TagName(vt).Some? && EnumCase(vt) == TagName(vt)
  {
  }

  // ---------- patterns ----------

  lemma WildMeans<H(!new)>(w: World<H>, res: Expr, tag: Option<Expr>, b: bool, env: Env, except: set<VariableId>)
    requires TagHolds(w, tag, b, env, except)
    ensures BranchMeans(w, Desugar.Branch(Desugar.OrTrue(tag), res), res, TakenIf(b, map[]), env, except)
  {
    hide Steady, Binds, Agree, SteadyBool, SteadyFault, TagHolds;
    OrTrueMeans(w, tag, b, env, except);
    BindsNothing(w, res, env, except);
  }

  lemma IdentifierMeans<H(!new)>(w: World<H>, lit: Expr, res: Expr, pred: Expr, tag: Option<Expr>, b: bool,
                                 u: Option<ValueAndType>, env: Env, except: set<VariableId>)
    requires hide Binds, Desugar.LiteralBranch, LiteralOf, Steady, SteadyBool, SteadyFault, Tests, DecidesLiteral;
             IsIdentifier(lit) && lit.kind.leaf.variable in except && (b ==> u.Some?)
    requires TagHolds(w, tag, b, env, except) && Is(w, pred, u, env, except)
    ensures BranchMeans(w, Desugar.LiteralBranch(lit, res, pred, tag), res, DecidesLiteral(lit, b, u), env, except)
  {
    hide Steady, SteadyFault, Binds, Agree, NumberAs, WitOf, LiteralOf;
    OrTrueMeans(w, tag, b, env, except);
    if b {
      BlockBinds(w, Expr(Let(lit.kind.leaf.variable, pred), lit.ty, NO_NOTE), res, Val(u.value), env, except);
    }
  }

  lemma EnumMeans<H(!new)>(w: World<H>, lit: Expr, res: Expr, pred: Expr, tag: Option<Expr>, b: bool,
                           u: Option<ValueAndType>, ty: InferredType, env: Env, except: set<VariableId>)
    requires hide *; IsEnum(lit) && ty.inner.TEnum?
    requires TagHolds(w, tag, b, env, except) && Is(w, pred, u, env, except)
    requires b ==> u.Some? && HasShape(u.value.value, u.value.typ, ty)
    ensures BranchMeans(w, Desugar.LiteralBranch(lit, res, pred, tag), res, DecidesLiteral(lit, b, u), env, except)
  {
    hide Steady, SteadyFault, Binds, Agree, HasShape, EnumCase, TagName, LiteralOf, Desugar.TagTest;
    var name := lit.kind.callType.enum_;
    BindsNothing(w, res, env, except);
    if b {
      EnumFacts(u.value, ty);
      SteadyTagTest(w, pred, name, u.value, TagName(u.value).value, env, except);
    }
    UnderMeans(w, tag, Desugar.TagTest(pred, name), b, TakenIf(b && EnumCase(u.value) == Some(name), map[]), env, except);
  }

  lemma LiteralSteady<H(!new)>(w: World<H>, lit: Expr, env: Env, except: set<VariableId>) returns (l: ValueAndType)
    requires LiteralOf(lit).Some?
    ensures Steady(w, lit, Val(l), env, except) && GetLiteral(l) == LiteralOf(lit)
    ensures l.value.VStr? || l.value.VBool? || l.value.VNum?
  {
    hide Eval, Agree, WitOf, AsInstanceVariable;
    match lit.kind {
      case Atom(Literal(s)) => l := StrVT(s);
      case Atom(Boolean(b)) => l := BoolVT(b);
      case Atom(Number(n)) => l := NumberAs(n, WitOf(lit.ty).value.num).value;
    }
    forall other: Env, h: H | Agree(other, env, except) ensures Eval(w, lit, other, h) == Done(Some(Val(l)), other, h) {
      EvalLeaf(w, lit, other, h);
    }
  }

  lemma ComparesLiterals(a: ValueAndType, b: ValueAndType)
    requires GetLiteral(a).Some? && GetLiteral(b).Some?
    ensures CompareValues(EqualTo, Val(a), Val(b)) == Some(MkVal(GetLiteral(a) == GetLiteral(b)))
  {
    hide GetLiteral;
  }

  /** A value that is no literal cannot be compared with one. */
  lemma ComparesNever(a: ValueAndType, b: ValueAndType)
    requires GetLiteral(a).None? && (b.value.VStr? || b.value.VBool? || b.value.VNum?)
    ensures CompareValues(EqualTo, Val(a), Val(b)) == None
  {
  }

  /** A plain literal: the value is compared, whatever tags have been asked for before. */
  lemma PlainLiteralMeans<H(!new)>(w: World<H>, lit: Expr, res: Expr, pred: Expr, tag: Option<Expr>, b: bool, u: Option<ValueAndType>,
                                   env: Env, except: set<VariableId>)
    requires !IsIdentifier(lit) && !IsEnum(lit) && LiteralOf(lit).Some? && Is(w, pred, u, env, except)
    ensures BranchMeans(w, Desugar.LiteralBranch(lit, res, pred, tag), res, DecidesLiteral(lit, b, u), env, except)
  {
    hide Binds, Agree, GetLiteral, LiteralOf, CompareValues, Eval, Desugar.LiteralBranch, EnumCase, MkEq, MkVal;
    var l := LiteralSteady(w, lit, env, except);
    BindsNothing(w, res, env, except);
    if u.Some? && GetLiteral(u.value).Some? {
      ComparesLiterals(u.value, l);
    } else if u.Some? {
      ComparesNever(u.value, l);
    }
    var d := DecidesLiteral(lit, b, u);
    forall other: Env, h: H | Agree(other, env, except)
      ensures Eval(w, MkEq(pred, lit), other, h) == if d.Broken? then Fault(h) else Done(Some(MkVal(d.Taken?)), other, h)
    {
      EvalEqualsStep(w, pred, lit, Val(l), other, h);
    }
    PlainBranch(lit, res, pred, tag);
  }

  lemma {:induction false} PlainBranch(lit: Expr, res: Expr, pred: Expr, tag: Option<Expr>)
    requires !IsIdentifier(lit) && !IsEnum(lit)
    ensures Desugar.LiteralBranch(lit, res, pred, tag) == Desugar.Branch(MkEq(pred, lit), res)
  {
  }

  lemma LiteralMeans<H(!new)>(w: World<H>, lit: Expr, res: Expr, pred: Expr, tag: Option<Expr>, ty: InferredType, b: bool,
                              u: Option<ValueAndType>, env: Env, except: set<VariableId>)
    requires hide *; CoveredLiteral(lit, ty) && Binders(LiteralPattern(lit)) <= except
    requires TagHolds(w, tag, b, env, except) && Is(w, pred, u, env, except)
    requires b ==> u.Some? && HasShape(u.value.value, u.value.typ, ty)
    ensures BranchMeans(w, Desugar.LiteralBranch(lit, res, pred, tag), res, DecidesLiteral(lit, b, u), env, except)
  {
    hide Is, Binds, Agree, HasShape, BranchMeans, Desugar.LiteralBranch, DecidesLiteral, LiteralOf, TagHolds,
         AllBinders;
    if IsIdentifier(lit) {
      IdentifierMeans(w, lit, res, pred, tag, b, u, env, except);
    } else if IsEnum(lit) {
      EnumMeans(w, lit, res, pred, tag, b, u, ty, env, except);
    } else {
      PlainLiteralMeans(w, lit, res, pred, tag, b, u, env, except);
    }
  }

  /** Condition and body of a pattern do what the verdict on it says, whatever is tested before. */
  lemma {:induction false} PatternMeans<H(!new)>(w: World<H>, p: ArmPattern, res: Expr, pred: Expr, tag: Option<Expr>, ty: InferredType,
                                                 b: bool, u: Option<ValueAndType>, env: Env, except: set<VariableId>)
    requires hide *; Covered(p, ty) && Binders(p) <= except
    requires TagHolds(w, tag, b, env, except) && Is(w, pred, u, env, except)
    requires b ==> u.Some? && HasShape(u.value.value, u.value.typ, ty)
    ensures var c := Desugar.Conditions(p, res, pred, tag, ty);
            c.Some? && BranchMeans(w, c.value, res, Decides(p, b, u), env, except)
    decreases p, 1
  {
    hide Is, Binds, Agree, HasShape, BranchMeans, TagHolds, Eval, CoveredLiteral, DecidesLiteral,
         Desugar.LiteralBranch, DecidesFields, DecidesItems, FieldsCovered, ItemsCovered, Desugar.ConstructorBranch,
         Desugar.FieldBranches, Desugar.FindCase;
    match p
    case WildCard => WildMeans(w, res, tag, b, env, except);
    case LiteralPattern(lit) => LiteralMeans(w, lit, res, pred, tag, ty, b, u, env, except);
    case As(name, q) =>
      var binding := Expr(Let(Global(name), pred), pred.ty, NO_NOTE);
      PatternMeans(w, q, MkBlock([binding, res]), pred, tag, ty, b, u, env, except);
      AsMeans(w, q, name, res, pred, tag, ty, b, u, env, except);
    case Constructor(name, ps) =>
      if ps == [] {
        NoneMeans(w, p, res, pred, tag, ty, b, u, env, except);
      } else {
        PayloadMeans(w, name, ps, res, pred, tag, ty, b, u, env, except);
      }
    case TupleConstructor(ps) => TupleMeans(w, ps, res, pred, tag, ty, b, u, env, except);
    case RecordConstructor(fps) => RecordMeans(w, fps, res, pred, tag, ty, b, u, env, except);
  }

  lemma AsMeans<H(!new)>(w: World<H>, q: ArmPattern, name: string, res: Expr, pred: Expr, tag: Option<Expr>, ty: InferredType,
                         b: bool, u: Option<ValueAndType>, env: Env, except: set<VariableId>)
    requires hide *; Global(name) in except && Is(w, pred, u, env, except) && (b ==> u.Some?)
    requires var binding := Expr(Let(Global(name), pred), pred.ty, NO_NOTE);
             var c := Desugar.Conditions(q, MkBlock([binding, res]), pred, tag, ty);
             c.Some? && BranchMeans(w, c.value, MkBlock([binding, res]), Decides(q, b, u), env, except)
    ensures var c := Desugar.Conditions(As(name, q), res, pred, tag, ty);
            c.Some? && BranchMeans(w, c.value, res, Decides(As(name, q), b, u), env, except)
  {
    hide Steady, SteadyFault, Binds, Agree, SteadyBool, Desugar.ItemBranches, DecidesItems;
    var binding := Expr(Let(Global(name), pred), pred.ty, NO_NOTE);
    var c := Desugar.Conditions(q, MkBlock([binding, res]), pred, tag, ty).value;
    var d := Decides(q, b, u);
    if d.Taken? {
      if u.None? {
        NoValueNotTaken(q);
      }
      BindsOneMore(w, c.body, binding, res, d.m, Val(u.value), env, except);
    }
  }

  lemma NoneMeans<H(!new)>(w: World<H>, p: ArmPattern, res: Expr, pred: Expr, tag: Option<Expr>, ty: InferredType, b: bool,
                           u: Option<ValueAndType>, env: Env, except: set<VariableId>)
    requires hide *; p.Constructor? && p.patterns == [] && Covered(p, ty) && TagHolds(w, tag, b, env, except)
    requires Is(w, pred, u, env, except) && (b ==> u.Some? && HasShape(u.value.value, u.value.typ, ty))
    ensures var c := Desugar.Conditions(p, res, pred, tag, ty);
            c.Some? && BranchMeans(w, c.value, res, Decides(p, b, u), env, except)
  {
    hide Steady, SteadyFault, Binds, Agree, HasShape, TagName, InCase, TagHolds;
    BindsNothing(w, res, env, except);
    if b {
      NoneFacts(u.value, ty);
      SteadyTagTest(w, pred, "none", u.value, TagName(u.value).value, env, except);
    }
    UnderMeans(w, tag, Desugar.TagTest(pred, "none"), b, TakenIf(b && TagName(u.value) == Some("none"), map[]), env, except);
  }

  lemma {:induction false} CoveredPayload(name: string, ps: seq<ArmPattern>, res: Expr, pred: Expr, tag: Option<Expr>,
                                          ty: InferredType)
    requires hide *; Covered(Constructor(name, ps), ty) && ps != []
    ensures |ps| == 1 && PayloadType(name, ty).Some? && Covered(ps[0], PayloadType(name, ty).value)
    ensures Desugar.Conditions(Constructor(name, ps), res, pred, tag, ty)
            == Desugar.Conditions(ps[0], res, MkUnwrap(pred), Some(Desugar.Under(tag, Desugar.TagTest(pred, name))),
                                  PayloadType(name, ty).value)
  {
    hide CoveredLiteral, Desugar.LiteralBranch;
  }

  /** The tag of the value is that of the constructor. */
  predicate Here(name: string, b: bool, u: Option<ValueAndType>) { hide *; b && u.Some? && TagName(u.value) == Some(name) }

  lemma {:induction false} HereUnwraps(name: string, ty: InferredType, b: bool, u: Option<ValueAndType>)
    requires hide HasShape, Desugar.FindCase, PayloadType, Unwrapped, InCase, TagName;
             PayloadType(name, ty).Some? && (b ==> u.Some? && HasShape(u.value.value, u.value.typ, ty)) && Here(name, b, u)
    ensures Unwrapped(u).Some? && HasShape(Unwrapped(u).value.value, Unwrapped(u).value.typ, PayloadType(name, ty).value)
    ensures InCase(name, u.value) == Some(Unwrapped(u))
  {
    hide HasShape, PayloadType, UnwrapValue, InCase, TagName;
    CaseFacts(name, u.value, ty);
  }

  lemma {:induction false} PayloadMeans<H(!new)>(w: World<H>, name: string, ps: seq<ArmPattern>, res: Expr, pred: Expr, tag: Option<Expr>,
                                                 ty: InferredType, b: bool, u: Option<ValueAndType>, env: Env, except: set<VariableId>)
    requires hide *; Covered(Constructor(name, ps), ty) && ps != [] && AllBinders(ps) <= except
    requires TagHolds(w, tag, b, env, except) && Is(w, pred, u, env, except)
    requires b ==> u.Some? && HasShape(u.value.value, u.value.typ, ty)
    ensures var c := Desugar.Conditions(Constructor(name, ps), res, pred, tag, ty);
            c.Some? && BranchMeans(w, c.value, res, Decides(Constructor(name, ps), b, u), env, except)
    decreases ps, 0
  {
    hide Steady, SteadyFault, Binds, Agree, HasShape, BranchMeans, TagHolds, Eval, Covered, TagName, Unwrapped,
         Desugar.Conditions, PayloadType, LiteralOf, ArmsCost, DecidesLiteral, Binders, InCase;
    CoveredPayload(name, ps, res, pred, tag, ty);
    var test := Desugar.TagTest(pred, name);
    var tested := Desugar.Under(tag, test);
    var here := Here(name, b, u);
    if b {
      CaseFacts(name, u.value, ty);
      SteadyTagTest(w, pred, name, u.value, TagName(u.value).value, env, except);
    }
    if here {
      HereUnwraps(name, ty, b, u);
    }
    UnderMeans(w, tag, test, b, TakenIf(here, map[]), env, except);
    TagSome(w, tested, here, env, except);
    UnwrapIs(w, pred, u, env, except);
    PatternMeans(w, ps[0], res, MkUnwrap(pred), Some(tested), PayloadType(name, ty).value, here, Unwrapped(u), env, except);
  }

  lemma TagSome<H(!new)>(w: World<H>, t: Expr, b: bool, env: Env, except: set<VariableId>)
    requires SteadyBool(w, t, b, env, except)
    ensures TagHolds(w, Some(t), b, env, except)
  {
    hide Steady;
  }

  lemma NoTag<H(!new)>(w: World<H>, env: Env, except: set<VariableId>)
    ensures TagHolds(w, None, true, env, except)
  {
    hide Steady;
  }

  // ---------- tuples and records ----------

  /** The verdicts on the items, one by one. */
  function ItemVerdicts(ps: seq<ArmPattern>, items: seq<Value>, types: seq<WitType>): (ds: seq<Verdict>)
    requires hide *; |ps| <= |items| && |ps| <= |types|
    ensures |ds| == |ps|
  {
    if ps == [] then [] else [Decides(ps[0], true, Some(VT(items[0], types[0])))] + ItemVerdicts(ps[1..], items[1..], types[1..])
  }

  lemma ItemsInARow(ps: seq<ArmPattern>, items: seq<Value>, types: seq<WitType>)
    requires hide *; |ps| <= |items| && |ps| <= |types|
    ensures AllOf(ItemVerdicts(ps, items, types)) == DecidesItems(ps, items, types)
    decreases ps
  {
    hide Decides, AndThen;
    if ps != [] {
      ItemsInARow(ps[1..], items[1..], types[1..]);
      var rest := ItemVerdicts(ps[1..], items[1..], types[1..]);
      assert ItemVerdicts(ps, items, types)[1..] == rest;
    }
  }

  lemma BranchesCons<H(!new)>(w: World<H>, b: Desugar.Branch, d: Verdict, bs: seq<Desugar.Branch>, ds: seq<Verdict>,
                              env: Env, except: set<VariableId>)
    requires BranchMeans(w, b, MkLit(""), d, env, except) && BranchesMean(w, bs, ds, env, except)
    ensures BranchesMean(w, [b] + bs, [d] + ds, env, except)
  {
    hide BranchMeans;
  }

  lemma BranchesNil<H(!new)>(w: World<H>, env: Env, except: set<VariableId>)
    ensures BranchesMean(w, [], [], env, except)
  {
    hide BranchMeans;
  }

  lemma {:induction false} ItemsMean<H(!new)>(w: World<H>, ps: seq<ArmPattern>, pred: Expr, types: seq<InferredType>, i: nat,
                                              vt: ValueAndType, env: Env, except: set<VariableId>)
    requires hide *; vt.value.VTuple? && vt.typ.WTuple? && |vt.value.items| == |vt.typ.items| == |types|
    requires i + |ps| <= |types| && i + |ps| <= MaxOf(U64) && AllBinders(ps) <= except && ItemsCovered(ps, types[i..])
    requires Steady(w, pred, Val(vt), env, except)
    requires forall k :: 0 <= k < |types| ==> HasShape(vt.value.items[k], vt.typ.items[k], types[k])
    ensures BranchesMean(w, Desugar.ItemBranches(ps, pred, types, i), ItemVerdicts(ps, vt.value.items[i..], vt.typ.items[i..]), env, except)
    ensures |Desugar.ItemBranches(ps, pred, types, i)| == |ps|
    decreases ps, 0
  {
    hide Steady, HasShape, BranchMeans, BranchesMean, TagHolds, Covered, Decides, Desugar.Conditions, Binders,
         SteadyFault, Desugar.ItemAt, MkLit;
    if ps == [] {
      BranchesNil(w, env, except);
    } else {
      var item := VT(vt.value.items[i], vt.typ.items[i]);
      assert types[i..][0] == types[i] && types[i..][1..] == types[i + 1..];
      assert vt.value.items[i..][0] == vt.value.items[i] && vt.value.items[i..][1..] == vt.value.items[i + 1..];
      assert vt.typ.items[i..][0] == vt.typ.items[i] && vt.typ.items[i..][1..] == vt.typ.items[i + 1..];
      SteadyItem(w, pred, i, vt, env, except);
      NoTag(w, env, except);
      PatternMeans(w, ps[0], MkLit(""), Desugar.ItemAt(pred, i), None, types[i], true, Some(item), env, except);
      ItemsMean(w, ps[1..], pred, types, i + 1, vt, env, except);
      BranchesCons(w, Desugar.Conditions(ps[0], MkLit(""), Desugar.ItemAt(pred, i), None, types[i]).value, Decides(ps[0], true, Some(item)),
                   Desugar.ItemBranches(ps[1..], pred, types, i + 1), ItemVerdicts(ps[1..], vt.value.items[i + 1..], vt.typ.items[i + 1..]),
                   env, except);
    }
  }

  /** Covered patterns always have a branch. */
  lemma {:induction false} HasBranch(p: ArmPattern, res: Expr, pred: Expr, tag: Option<Expr>, ty: InferredType)
    requires Covered(p, ty)
    ensures Desugar.Conditions(p, res, pred, tag, ty).Some?
    decreases p
  {
    hide ItemsCovered, LiteralOf, FieldsCovered, Desugar.FieldBranches, Desugar.ItemBranches;
    match p
    case As(name, q) => HasBranch(q, MkBlock([Expr(Let(Global(name), pred), pred.ty, NO_NOTE), res]), pred, tag, ty);
    case Constructor(name, ps) =>
      if ps != [] {
        CoveredPayload(name, ps, res, pred, tag, ty);
        HasBranch(ps[0], res, MkUnwrap(pred), Some(Desugar.Under(tag, Desugar.TagTest(pred, name))), PayloadType(name, ty).value);
      }
    case TupleConstructor(ps) =>
      if ps != [] && ty.inner.TTuple? && |ps| <= |ty.inner.items| {
        assert ty.inner.items[0..] == ty.inner.items;
        FirstItemBranch(ps, pred, ty.inner.items);
      }
    case RecordConstructor(fps) =>
      if fps != [] && ty.inner.TRecord? {
        FirstFieldBranch(fps, pred, ty.inner.fields);
      }
    case _ =>
  }

  lemma {:induction false} FirstItemBranch(ps: seq<ArmPattern>, pred: Expr, types: seq<InferredType>)
    requires hide *; ps != [] && |ps| <= |types| && ItemsCovered(ps, types)
    ensures Desugar.ItemBranches(ps, pred, types, 0) != []
    decreases ps, 0
  {
    hide Covered, Desugar.Conditions;
    HasBranch(ps[0], MkLit(""), Desugar.ItemAt(pred, 0), None, types[0]);
  }

  lemma {:induction false} FirstFieldBranch(fps: seq<Field<ArmPattern>>, pred: Expr, fields: seq<Field<InferredType>>)
    requires fps != [] && FieldsCovered(fps, fields)
    ensures Desugar.FieldBranches(fps, pred, fields) != []
    decreases fps, 0
  {
    hide Covered, Desugar.Conditions;
    HasBranch(fps[0].of, MkLit(""), Desugar.FieldAt(pred, fps[0].name), None, Desugar.FindField(fields, fps[0].name));
  }

  lemma TupleFacts(vt: ValueAndType, ty: InferredType)
    requires hide *; HasShape(vt.value, vt.typ, ty) && ty.inner.TTuple?
    ensures vt.value.VTuple? && vt.typ.WTuple? && |vt.value.items| == |vt.typ.items| == |ty.inner.items|
    ensures forall k :: 0 <= k < |ty.inner.items| ==> HasShape(vt.value.items[k], vt.typ.items[k], ty.inner.items[k])
  {
  }

  lemma {:induction false} TupleMeans<H(!new)>(w: World<H>, ps: seq<ArmPattern>, res: Expr, pred: Expr, tag: Option<Expr>,
                                               ty: InferredType, b: bool, u: Option<ValueAndType>, env: Env,
                                               except: set<VariableId>)
    requires hide *; Covered(TupleConstructor(ps), ty) && AllBinders(ps) <= except
    requires TagHolds(w, tag, b, env, except) && Is(w, pred, u, env, except)
    requires b ==> u.Some? && HasShape(u.value.value, u.value.typ, ty)
    ensures var c := Desugar.Conditions(TupleConstructor(ps), res, pred, tag, ty);
            c.Some? && BranchMeans(w, c.value, res, Decides(TupleConstructor(ps), b, u), env, except)
    decreases ps, 2
  {
    hide Steady, SteadyFault, HasShape, BranchMeans, BranchesMean, TagHolds, Desugar.Combined, Desugar.ItemBranches,
         ItemsCovered, DecidesItems, ItemVerdicts, AllOf;
    var types := ty.inner.items;
    var bs := Desugar.ItemBranches(ps, pred, types, 0);
    assert types[0..] == types;
    FirstItemBranch(ps, pred, types);
    var ds: seq<Verdict> := [];
    if b {
      var vt := u.value;
      TupleFacts(vt, ty);
      ItemsMean(w, ps, pred, types, 0, vt, env, except);
      assert vt.value.items[0..] == vt.value.items && vt.typ.items[0..] == vt.typ.items;
      ds := ItemVerdicts(ps, vt.value.items, vt.typ.items);
      ItemsInARow(ps, vt.value.items, vt.typ.items);
    }
    CombinedMeans(w, bs, ds, res, tag, b, env, except);
  }

  function FieldVerdicts(fps: seq<Field<ArmPattern>>, items: seq<Value>, fields: seq<Field<WitType>>): (ds: seq<Verdict>)
    requires hide *; |items| == |fields|
    ensures |ds| == |fps|
  {
    if fps == [] then [] else
    var i := FieldIndex(fields, fps[0].name);
    [if i.None? then Skipped else Decides(fps[0].of, true, Some(VT(items[i.value], fields[i.value].of)))]
    + FieldVerdicts(fps[1..], items, fields)
  }

  lemma FieldsInARow(fps: seq<Field<ArmPattern>>, items: seq<Value>, fields: seq<Field<WitType>>)
    requires hide *; |items| == |fields|
    ensures AllOf(FieldVerdicts(fps, items, fields)) == DecidesFields(fps, items, fields)
    decreases fps
  {
    hide Decides, AndThen;
    if fps != [] {
      FieldsInARow(fps[1..], items, fields);
      var rest := FieldVerdicts(fps[1..], items, fields);
      assert FieldVerdicts(fps, items, fields)[1..] == rest;
    }
  }

  /** Field names lead to the same place in the value and in the type. */
  lemma FindsField(fields: seq<Field<InferredType>>, wits: seq<Field<WitType>>, name: string) returns (i: nat)
    requires |fields| == |wits| && NoRepeats(FieldNamesOf(fields)) && name in FieldNamesOf(fields)
    requires forall k :: 0 <= k < |fields| ==> wits[k].name == fields[k].name
    ensures i < |fields| && FieldIndex(wits, name) == Some(i) && Desugar.FindField(fields, name) == fields[i].of
    decreases |fields|
  {
    if fields[0].name == name {
      i := 0;
    } else {
      assert FieldNamesOf(fields[1..]) == FieldNamesOf(fields)[1..];
      i := FindsField(fields[1..], wits[1..], name);
      i := i + 1;
    }
  }

  lemma {:induction false} RecordFacts(vt: ValueAndType, ty: InferredType)
    requires hide *; HasShape(vt.value, vt.typ, ty) && ty.inner.TRecord?
    ensures vt.value.VRecord? && vt.typ.WRecord? && |vt.value.items| == |vt.typ.fields| == |ty.inner.fields|
    ensures NoRepeats(FieldNamesOf(ty.inner.fields))
    ensures forall k :: 0 <= k < |ty.inner.fields| ==> vt.typ.fields[k].name == ty.inner.fields[k].name
    ensures forall k :: 0 <= k < |ty.inner.fields| ==> HasShape(vt.value.items[k], vt.typ.fields[k].of, ty.inner.fields[k].of)
  {
  }

  lemma {:induction false} FieldsMean<H(!new)>(w: World<H>, fps: seq<Field<ArmPattern>>, pred: Expr, fields: seq<Field<InferredType>>,
                                               vt: ValueAndType, env: Env, except: set<VariableId>)
    requires hide *; vt.value.VRecord? && vt.typ.WRecord? && |vt.value.items| == |vt.typ.fields| == |fields|
    requires FieldsCovered(fps, fields) && FieldBinders(fps) <= except && NoRepeats(FieldNamesOf(fields))
    requires Steady(w, pred, Val(vt), env, except)
    requires forall k :: 0 <= k < |fields| ==> vt.typ.fields[k].name == fields[k].name
    requires forall k :: 0 <= k < |fields| ==> HasShape(vt.value.items[k], vt.typ.fields[k].of, fields[k].of)
    ensures BranchesMean(w, Desugar.FieldBranches(fps, pred, fields), FieldVerdicts(fps, vt.value.items, vt.typ.fields), env, except)
    decreases fps, 0
  {
    hide Steady, HasShape, BranchMeans, BranchesMean, TagHolds, Covered, Decides, Desugar.Conditions, FieldIndex,
         Desugar.FindField, SelectFieldOf, Binders, SteadyFault;
    if fps == [] {
      BranchesNil(w, env, except);
    } else {
      var name := fps[0].name;
      var i := FindsField(fields, vt.typ.fields, name);
      var item := VT(vt.value.items[i], vt.typ.fields[i].of);
      SelectsField(name, vt, i);
      SteadyField(w, pred, name, vt, item, env, except);
      NoTag(w, env, except);
      PatternMeans(w, fps[0].of, MkLit(""), Desugar.FieldAt(pred, name), None, fields[i].of, true, Some(item), env, except);
      FieldsMean(w, fps[1..], pred, fields, vt, env, except);
      BranchesCons(w, Desugar.Conditions(fps[0].of, MkLit(""), Desugar.FieldAt(pred, name), None, fields[i].of).value, Decides(fps[0].of, true, Some(item)),
                   Desugar.FieldBranches(fps[1..], pred, fields), FieldVerdicts(fps[1..], vt.value.items, vt.typ.fields), env, except);
    }
  }

  lemma SelectsField(name: string, vt: ValueAndType, i: nat)
    requires hide *; vt.value.VRecord? && vt.typ.WRecord? && |vt.value.items| == |vt.typ.fields|
    requires FieldIndex(vt.typ.fields, name) == Some(i)
    ensures SelectFieldOf(name, Val(vt)) == Some(Val(VT(vt.value.items[i], vt.typ.fields[i].of)))
  {
  }

  lemma {:induction false} RecordMeans<H(!new)>(w: World<H>, fps: seq<Field<ArmPattern>>, res: Expr, pred: Expr, tag: Option<Expr>,
                                                ty: InferredType, b: bool, u: Option<ValueAndType>, env: Env,
                                               except: set<VariableId>)
    requires hide *; Covered(RecordConstructor(fps), ty) && FieldBinders(fps) <= except
    requires TagHolds(w, tag, b, env, except) && Is(w, pred, u, env, except)
    requires b ==> u.Some? && HasShape(u.value.value, u.value.typ, ty)
    ensures var c := Desugar.Conditions(RecordConstructor(fps), res, pred, tag, ty);
            c.Some? && BranchMeans(w, c.value, res, Decides(RecordConstructor(fps), b, u), env, except)
    decreases fps, 2
  {
    hide Steady, SteadyFault, HasShape, BranchMeans, BranchesMean, TagHolds, Desugar.Combined, Desugar.FieldBranches,
         FieldsCovered, DecidesFields, FieldVerdicts, AllOf, DecidesItems, ItemsCovered, Desugar.ConstructorBranch,
         DecidesLiteral, CoveredLiteral, Desugar.FindCase, Desugar.LiteralBranch, FieldBinders;
    var fields := ty.inner.fields;
    var bs := Desugar.FieldBranches(fps, pred, fields);
    FirstFieldBranch(fps, pred, fields);
    var ds: seq<Verdict> := [];
    if b {
      var vt := u.value;
      RecordFacts(vt, ty);
      FieldsMean(w, fps, pred, fields, vt, env, except);
      ds := FieldVerdicts(fps, vt.value.items, vt.typ.fields);
      FieldsInARow(fps, vt.value.items, vt.typ.fields);
    }
    CombinedMeans(w, bs, ds, res, tag, b, env, except);
  }

  // ---------- arms ----------

  function ArmBinders(arms: seq<MatchArm>): set<VariableId> {
    hide *;
    if arms == [] then {} else Binders(arms[0].pattern) + ArmBinders(arms[1..])
  }

  predicate ArmsCovered(arms: seq<MatchArm>, ty: InferredType) {
    forall a | a in arms :: Covered(a.pattern, ty)
  }

  /** Going on with the arm of a choice, with its variables bound; an error without an arm. */
  function OutcomeOf<H>(w: World<H>, arms: seq<MatchArm>, c: Choice, env: Env, h: H): Outcome<H>
    requires hide *; c.Goes? ==> c.arm < |arms|
  {
    match c
    case Goes(i, m) => Eval(w, arms[i].resolution, env + m, h)
    case _ => Fault(h)
  }

  lemma {:induction false} OutcomeLater<H>(w: World<H>, arms: seq<MatchArm>, c: Choice, env: Env, h: H)
    requires hide Eval, Weight; arms != [] && (c.Goes? ==> c.arm < |arms| - 1)
    ensures OutcomeOf(w, arms, Later(c), env, h) == OutcomeOf(w, arms[1..], c, env, h)
  {
    hide Eval;
  }

  lemma {:induction false} ArmsMean<H(!new)>(w: World<H>, arms: seq<MatchArm>, pred: Expr, vt: ValueAndType, env: Env,
                                             except: set<VariableId>, h: H)
    requires hide *; ArmsCovered(arms, pred.ty) && ArmBinders(arms) <= except
    requires Steady(w, pred, Val(vt), env, except) && HasShape(vt.value, vt.typ, pred.ty)
    ensures Eval(w, Desugar.Nest(Desugar.ArmBranches(pred, arms)), env, h) == OutcomeOf(w, arms, Chosen(arms, vt), env, h)
    ensures arms != [] ==> Desugar.ArmBranches(pred, arms) != []
    decreases |arms|
  {
    hide Steady, SteadyFault, HasShape, BranchMeans, Decides, Eval, Desugar.Conditions, Covered, Binders, SteadyBool,
         Discipline;
    if arms == [] {
      ThrowFaults(w, MkThrow(Desugar.NO_MATCH), env, h);
    } else {
      assert arms[0] in arms;
      var rest := Desugar.ArmBranches(pred, arms[1..]);
      NoTag(w, env, except);
      PatternMeans(w, arms[0].pattern, arms[0].resolution, pred, None, pred.ty, true, Some(vt), env, except);
      var b := Desugar.Conditions(arms[0].pattern, arms[0].resolution, pred, None, pred.ty).value;
      ArmsMean(w, arms[1..], pred, vt, env, except, h);
      assert ([b] + rest)[1..] == rest;
      BranchDecides(w, b, arms[0].resolution, Decides(arms[0].pattern, true, Some(vt)), Desugar.Nest(rest), env, except, h);
      OutcomeLater(w, arms, Chosen(arms[1..], vt), env, h);
    }
  }

  lemma BranchDecides<H(!new)>(w: World<H>, b: Desugar.Branch, res: Expr, d: Verdict, other: Expr, env: Env,
                               except: set<VariableId>, h: H)
    requires BranchMeans(w, b, res, d, env, except)
    ensures Eval(w, Mk(Cond(b.condition, b.body, other)), env, h)
            == match d
               case Taken(m) => Eval(w, res, env + m, h)
               case Skipped => Eval(w, other, env, h)
               case Broken => Fault(h)
  {
    hide Eval;
    assert Agree(env, env, except);
    EvalCond(w, Mk(Cond(b.condition, b.body, other)), env, h);
    if !d.Broken? {
      assert Eval(w, b.condition, env, h) == Done(Some(MkVal(d.Taken?)), env, h);
    }
  }

  /** A match goes on with the first arm that is not skipped, with exactly the variables of its pattern; testing an arm can
      be an error, and so is the end of the arms. */
  lemma MatchMeans<H(!new)>(w: World<H>, e: Expr, vt: ValueAndType, env: Env, h: H)
    requires hide *; e.kind.PatternMatch? && e.kind.arms != [] && ArmsCovered(e.kind.arms, e.kind.scrutinee.ty)
    requires Steady(w, e.kind.scrutinee, Val(vt), env, ArmBinders(e.kind.arms))
    requires HasShape(vt.value, vt.typ, e.kind.scrutinee.ty)
    ensures Eval(w, e, env, h) == OutcomeOf(w, e.kind.arms, Chosen(e.kind.arms, vt), env, h)
  {
    hide Steady, HasShape, Eval, Desugar.ArmBranches, Desugar.Nest, Weight, ArmsCovered, ArmBinders, OutcomeOf,
         Chosen, PlanOf;
    ArmsMean(w, e.kind.arms, e.kind.scrutinee, vt, env, ArmBinders(e.kind.arms), h);
    MatchPlanIs(e);
    EvalRewritten(w, e, env, h);
  }

  lemma MatchPlanIs(e: Expr)
    requires hide *; e.kind.PatternMatch? && Desugar.ArmBranches(e.kind.scrutinee, e.kind.arms) != []
    ensures PlanOf(e, 0) == Rewrite(Desugar.Nest(Desugar.ArmBranches(e.kind.scrutinee, e.kind.arms)))
  {
    hide Weight, Desugar.ArmBranches, Desugar.Nest, LeafPlan, CallPlan, SelectPlan, WitOf;
  }

  // ---------- when the arm chosen is the arm meant ----------

  /** No plain literal directly below a constructor. */
  predicate Guarded(p: ArmPattern, below: bool)
    decreases p
  {
    hide *;
    match p
    case LiteralPattern(lit) => !below || IsIdentifier(lit) || IsEnum(lit)
    case As(_, q) => Guarded(q, below)
    case Constructor(_, ps) => AllGuarded(ps, true)
    case TupleConstructor(ps) => AllGuarded(ps, false)
    case RecordConstructor(fps) => FieldsGuarded(fps)
    case _ => true
  }

  predicate AllGuarded(ps: seq<ArmPattern>, below: bool)
    decreases ps
  {
    hide *;
    ps == [] || (Guarded(ps[0], below) && AllGuarded(ps[1..], below))
  }

  predicate FieldsGuarded(fps: seq<Field<ArmPattern>>)
    decreases fps
  {
    hide *;
    fps == [] || (Guarded(fps[0].of, false) && FieldsGuarded(fps[1..]))
  }

  lemma ScalarLiteral(vt: ValueAndType, ty: InferredType)
    requires HasShape(vt.value, vt.typ, ty)
    requires ty.inner.TBool? || ty.inner.TNum? || ty.inner.TChr? || ty.inner.TStr? || ty.inner.TEnum?
    ensures GetLiteral(vt).Some?
  {
  }

  function MeantUnder(p: ArmPattern, b: bool, u: Option<ValueAndType>): Verdict {
    hide *;
    if b && u.Some? then VerdictOf(Matches(p, u.value)) else Skipped
  }

  /** Without plain literals below constructors the verdict is what the pattern means. */
  lemma {:induction false} GuardedRight(p: ArmPattern, ty: InferredType, below: bool, b: bool, u: Option<ValueAndType>)
    requires hide *;
             Covered(p, ty) && Guarded(p, below) && (below || b) && (b ==> u.Some? && HasShape(u.value.value, u.value.typ, ty))
    ensures Decides(p, b, u) == MeantUnder(p, b, u)
    decreases p, 1
  {
    hide HasShape, GetLiteral, LiteralOf, TagName, InCase, Unwrapped, EnumCase, FieldsCovered;
    match p
    case WildCard =>
    case LiteralPattern(lit) =>
      if !IsIdentifier(lit) && !IsEnum(lit) {
        ScalarLiteral(u.value, ty);
      }
    case As(_, q) => GuardedRight(q, ty, below, b, u);
    case Constructor(name, ps) =>
      if ps == [] {
        if b {
          NoneFacts(u.value, ty);
        }
      } else {
        PayloadRight(name, ps, ty, b, u);
      }
    case TupleConstructor(ps) =>
      if b {
        TupleFacts(u.value, ty);
        ItemsRight(ps, ty.inner.items, u.value.value.items, u.value.typ.items);
      }
    case RecordConstructor(fps) =>
      if b {
        RecordFacts(u.value, ty);
        FieldsRight(fps, ty.inner.fields, u.value.value.items, u.value.typ.fields);
      }
  }

  lemma {:induction false} PayloadRight(name: string, ps: seq<ArmPattern>, ty: InferredType, b: bool,
                                        u: Option<ValueAndType>)
    requires hide *; Covered(Constructor(name, ps), ty) && ps != [] && AllGuarded(ps, true)
    requires b ==> u.Some? && HasShape(u.value.value, u.value.typ, ty)
    ensures Decides(Constructor(name, ps), b, u) == MeantUnder(Constructor(name, ps), b, u)
    decreases ps, 0
  {
    hide HasShape, TagName, InCase, Unwrapped, Covered, Guarded, PayloadType, MatchesFields, MatchesItems,
         Desugar.Conditions, LiteralOf;
    CoveredPayload(name, ps, MkLit(""), MkLit(""), None, ty);
    if b {
      CaseFacts(name, u.value, ty);
    }
    if Here(name, b, u) {
      HereUnwraps(name, ty, b, u);
    }
    GuardedRight(ps[0], PayloadType(name, ty).value, true, Here(name, b, u), Unwrapped(u));
  }

  lemma {:induction false} ItemsRight(ps: seq<ArmPattern>, types: seq<InferredType>, items: seq<Value>, wits: seq<WitType>)
    requires hide *; |ps| <= |types| == |items| == |wits| && ItemsCovered(ps, types) && AllGuarded(ps, false)
    requires forall k :: 0 <= k < |types| ==> HasShape(items[k], wits[k], types[k])
    ensures DecidesItems(ps, items, wits) == VerdictOf(MatchesItems(ps, items, wits))
    decreases ps, 0
  {
    hide HasShape, Covered, Guarded, Decides, Matches;
    if ps != [] {
      GuardedRight(ps[0], types[0], false, true, Some(VT(items[0], wits[0])));
      ItemsRight(ps[1..], types[1..], items[1..], wits[1..]);
    }
  }

  lemma {:induction false} FieldsRight(fps: seq<Field<ArmPattern>>, fields: seq<Field<InferredType>>, items: seq<Value>,
                                       wits: seq<Field<WitType>>)
    requires hide *;
             |fields| == |items| == |wits| && FieldsCovered(fps, fields) && FieldsGuarded(fps) && NoRepeats(FieldNamesOf(fields))
    requires forall k :: 0 <= k < |fields| ==> wits[k].name == fields[k].name
    requires forall k :: 0 <= k < |fields| ==> HasShape(items[k], wits[k].of, fields[k].of)
    ensures DecidesFields(fps, items, wits) == VerdictOf(MatchesFields(fps, items, wits))
    decreases fps, 0
  {
    hide HasShape, Covered, Guarded, Decides, Matches, FieldIndex, Desugar.FindField;
    if fps != [] {
      var i := FindsField(fields, wits, fps[0].name);
      GuardedRight(fps[0].of, fields[i].of, false, true, Some(VT(items[i], wits[i].of)));
      FieldsRight(fps[1..], fields, items, wits);
    }
  }

  /** A pattern that fits is always taken, with the variables it binds, whatever literals it has; so the code can only go
      wrong on values a pattern does not fit. */
  lemma {:induction false} FittingIsTaken(p: ArmPattern, ty: InferredType, vt: ValueAndType)
    requires hide *; Covered(p, ty) && HasShape(vt.value, vt.typ, ty) && Matches(p, vt).Some?
    ensures Decides(p, true, Some(vt)) == Taken(Matches(p, vt).value)
    decreases p, 1
  {
    hide HasShape, GetLiteral, LiteralOf, TagName, InCase, Unwrapped, EnumCase, Covered, Desugar.Conditions;
    CoveredParts(p, ty);
    match p
    case As(_, q) => FittingIsTaken(q, ty, vt);
    case Constructor(name, ps) =>
      if ps == [] {
        NoneFacts(vt, ty);
      } else {
        CoveredPayload(name, ps, MkLit(""), MkLit(""), None, ty);
        CaseFacts(name, vt, ty);
        HereUnwraps(name, ty, true, Some(vt));
        FittingIsTaken(ps[0], PayloadType(name, ty).value, Unwrapped(Some(vt)).value);
      }
    case TupleConstructor(ps) =>
      TupleFacts(vt, ty);
      ItemsTaken(ps, ty.inner.items, vt.value.items, vt.typ.items);
    case RecordConstructor(fps) =>
      RecordFacts(vt, ty);
      FieldsTaken(fps, ty.inner.fields, vt.value.items, vt.typ.fields);
    case _ =>
  }

  lemma {:induction false} CoveredParts(p: ArmPattern, ty: InferredType)
    requires hide *; Covered(p, ty)
    ensures p.As? ==> Covered(p.inner, ty)
    ensures p.Constructor? && p.patterns == [] ==> ty.inner.TOption? && p.name == "none"
    ensures p.TupleConstructor? ==> ty.inner.TTuple? && |p.patterns| <= |ty.inner.items| && ItemsCovered(p.patterns, ty.inner.items)
    ensures p.RecordConstructor? ==> ty.inner.TRecord? && FieldsCovered(p.fieldPatterns, ty.inner.fields)
  {
    hide ItemsCovered, FieldsCovered, CoveredLiteral;
  }

  lemma {:induction false} ItemsTaken(ps: seq<ArmPattern>, types: seq<InferredType>, items: seq<Value>, wits: seq<WitType>)
    requires hide *;
             |ps| <= |types| == |items| == |wits| && ItemsCovered(ps, types) && MatchesItems(ps, items, wits).Some?
    requires forall k :: 0 <= k < |types| ==> HasShape(items[k], wits[k], types[k])
    ensures DecidesItems(ps, items, wits) == Taken(MatchesItems(ps, items, wits).value)
    decreases ps, 0
  {
    hide HasShape, Covered, Decides, Matches;
    if ps != [] {
      FittingIsTaken(ps[0], types[0], VT(items[0], wits[0]));
      ItemsTaken(ps[1..], types[1..], items[1..], wits[1..]);
    }
  }

  lemma {:induction false} FieldsTaken(fps: seq<Field<ArmPattern>>, fields: seq<Field<InferredType>>, items: seq<Value>,
                                       wits: seq<Field<WitType>>)
    requires hide *; |fields| == |items| == |wits| && FieldsCovered(fps, fields) && NoRepeats(FieldNamesOf(fields))
    requires forall k :: 0 <= k < |fields| ==> wits[k].name == fields[k].name
    requires forall k :: 0 <= k < |fields| ==> HasShape(items[k], wits[k].of, fields[k].of)
    requires MatchesFields(fps, items, wits).Some?
    ensures DecidesFields(fps, items, wits) == Taken(MatchesFields(fps, items, wits).value)
    decreases fps, 0
  {
    hide HasShape, Covered, Decides, Matches, FieldIndex, Desugar.FindField;
    if fps != [] {
      var i := FindsField(fields, wits, fps[0].name);
      FittingIsTaken(fps[0].of, fields[i].of, VT(items[i], wits[i].of));
      FieldsTaken(fps[1..], fields, items, wits);
    }
  }

  predicate ArmsGuarded(arms: seq<MatchArm>) { forall a | a in arms :: Guarded(a.pattern, false) }

  /** Such a match picks the first arm whose pattern fits, binds exactly the variables of that pattern and goes on with its
      resolution; it ends in an error when no arm fits, and never because a value was unwrapped whose tag was different. */
  lemma GuardedMatchMeans<H(!new)>(w: World<H>, e: Expr, vt: ValueAndType, env: Env, h: H)
    requires hide *;
             e.kind.PatternMatch? && e.kind.arms != [] && ArmsCovered(e.kind.arms, e.kind.scrutinee.ty) && ArmsGuarded(e.kind.arms)
    requires Steady(w, e.kind.scrutinee, Val(vt), env, ArmBinders(e.kind.arms))
    requires HasShape(vt.value, vt.typ, e.kind.scrutinee.ty)
    ensures Eval(w, e, env, h) == OutcomeOf(w, e.kind.arms, Meant(e.kind.arms, vt), env, h)
  {
    hide Steady, HasShape, Eval, Covered, Guarded, ArmBinders, OutcomeOf, Chosen, Meant, Decides, Matches;
    var arms := e.kind.arms;
    MatchMeans(w, e, vt, env, h);
    forall i | 0 <= i < |arms| ensures Right(arms[i].pattern, vt) {
      assert arms[i] in arms;
      GuardedRight(arms[i].pattern, e.kind.scrutinee.ty, false, true, Some(vt));
    }
    ChosenIsMeant(arms, vt);
  }

  // ---------- plain literals below constructors ----------

  /** A literal below a chain of constructors (or none), with names in between. */
  function LiteralBelow(p: ArmPattern): Option<Expr>
    decreases p
  {
    hide *;
    match p
    case LiteralPattern(lit) => if IsIdentifier(lit) || IsEnum(lit) then None else Some(lit)
    case As(_, q) => LiteralBelow(q)
    case Constructor(_, ps) => if |ps| == 1 then LiteralBelow(ps[0]) else None
    case _ => None
  }

  /** What lies in the cases of the chain, when the value is in all of them. */
  function InCases(p: ArmPattern, vt: ValueAndType): Option<ValueAndType>
    decreases p
  {
    hide *;
    match p
    case As(_, q) => InCases(q, vt)
    case Constructor(name, ps) =>
      if |ps| == 1 && InCase(name, vt).Some? && InCase(name, vt).value.Some? then InCases(ps[0], InCase(name, vt).value.value) else None
    case _ => Some(vt)
  }

  /** What is left after unwrapping as often as the chain has constructors, in whatever cases the value is. */
  function Inside(p: ArmPattern, u: Option<ValueAndType>): Option<ValueAndType>
    decreases p
  {
    hide *;
    match p
    case As(_, q) => Inside(q, u)
    case Constructor(name, ps) => if |ps| == 1 then Inside(ps[0], Unwrapped(u)) else None
    case _ => u
  }

  function LiteralInside(p: ArmPattern, u: Option<ValueAndType>): Option<LiteralValue> {
    hide *;
    if Inside(p, u).Some? then GetLiteral(Inside(p, u).value) else None
  }

  /** The verdict on such a pattern does not depend on the tags at all: it is an error when there is no literal inside, and
      otherwise a comparison. */
  lemma {:induction false} ChainIgnoresTags(p: ArmPattern, b: bool, u: Option<ValueAndType>)
    requires hide *; LiteralBelow(p).Some?
    ensures Decides(p, b, u).Broken? <==> LiteralInside(p, u).None?
    ensures Decides(p, b, u).Taken? <==> LiteralInside(p, u).Some? && LiteralInside(p, u) == LiteralOf(LiteralBelow(p).value)
    decreases p
  {
    hide GetLiteral, LiteralOf, TagName, UnwrapValue;
    match p
    case LiteralPattern(lit) =>
    case As(_, q) =>
      ChainIgnoresTags(q, b, u);
      if u.None? {
        NothingInside(q);
      }
    case Constructor(name, ps) => ChainIgnoresTags(ps[0], Here(name, b, u), Unwrapped(u));
  }

  lemma {:induction false} NothingInside(p: ArmPattern)
    ensures Inside(p, None).None?
    decreases p
  {
    match p
    case As(_, q) => NothingInside(q);
    case Constructor(_, ps) =>
      if |ps| == 1 {
        NothingInside(ps[0]);
      }
    case _ =>
  }

  /** A value that is in the cases of the chain is decided rightly; one that is not does not fit. */
  lemma {:induction false} ChainMeans(p: ArmPattern, ty: InferredType, b: bool, u: Option<ValueAndType>)
    requires hide *;
             LiteralBelow(p).Some? && Covered(p, ty) && (b ==> u.Some? && HasShape(u.value.value, u.value.typ, ty))
    ensures b && InCases(p, u.value).Some? ==> Decides(p, b, u) == VerdictOf(Matches(p, u.value))
    ensures b && InCases(p, u.value).None? ==> Matches(p, u.value).None?
    decreases p
  {
    hide HasShape, GetLiteral, LiteralOf, TagName, InCase, Unwrapped, PayloadType, Desugar.Conditions;
    match p
    case LiteralPattern(lit) =>
      if b {
        ScalarLiteral(u.value, ty);
      }
    case As(_, q) => ChainMeans(q, ty, b, u);
    case Constructor(name, ps) =>
      CoveredPayload(name, ps, MkLit(""), MkLit(""), None, ty);
      if b {
        CaseFacts(name, u.value, ty);
      }
      if Here(name, b, u) {
        HereUnwraps(name, ty, b, u);
      }
      ChainMeans(ps[0], PayloadType(name, ty).value, Here(name, b, u), Unwrapped(u));
  }

  /** So a pattern with a plain literal below constructors is decided rightly exactly for values in all its cases, and for
      values with a different literal inside. */
  lemma ChainRight(p: ArmPattern, ty: InferredType, vt: ValueAndType)
    requires hide *; LiteralBelow(p).Some? && Covered(p, ty) && HasShape(vt.value, vt.typ, ty)
    ensures Right(p, vt)
            <==> InCases(p, vt).Some?
                 || (LiteralInside(p, Some(vt)).Some? && LiteralInside(p, Some(vt)) != LiteralOf(LiteralBelow(p).value))
  {
    hide Decides, Matches, HasShape, InCases, LiteralInside, LiteralOf, Covered;
    ChainIgnoresTags(p, true, Some(vt));
    ChainMeans(p, ty, true, Some(vt));
  }

  // ---------- all covered patterns ----------

  /** All tests of the pattern succeed: plain literals below constructors are found inside the value, in whatever cases it
      is, everything else fits. */
  predicate Passes(p: ArmPattern, vt: ValueAndType)
    decreases p, 1
  {
    hide InCase, Inside, LiteralOf, Passes, LiteralInside, IsIdentifier;
    if LiteralBelow(p).Some? then LiteralInside(p, Some(vt)) == LiteralOf(LiteralBelow(p).value) else
    match p
    case LiteralPattern(lit) => IsIdentifier(lit) || (IsEnum(lit) && EnumCase(vt) == Some(lit.kind.callType.enum_))
    case As(_, q) => Passes(q, vt)
    case Constructor(name, ps) =>
      var payload := InCase(name, vt);
      payload.Some? && (if ps == [] then payload.value.None? else payload.value.Some? && Passes(ps[0], payload.value.value))
    case TupleConstructor(ps) =>
      (match vt
       case VT(VTuple(items), WTuple(types)) => |ps| <= |items| && |ps| <= |types| && ItemsPass(ps, items, types)
       case _ => false)
    case RecordConstructor(fps) =>
      (match vt
       case VT(VRecord(items), WRecord(fields)) => |items| == |fields| && FieldsPass(fps, items, fields)
       case _ => false)
    case _ => p.WildCard?
  }

  predicate ItemsPass(ps: seq<ArmPattern>, items: seq<Value>, types: seq<WitType>)
    requires hide *; |ps| <= |items| && |ps| <= |types|
    decreases ps, 0
  {
    ps == [] || (Passes(ps[0], VT(items[0], types[0])) && ItemsPass(ps[1..], items[1..], types[1..]))
  }

  predicate FieldsPass(fps: seq<Field<ArmPattern>>, items: seq<Value>, fields: seq<Field<WitType>>)
    requires hide *; |items| == |fields|
    decreases fps, 0
  {
    fps == [] ||
    (var i := FieldIndex(fields, fps[0].name);
     i.Some? && Passes(fps[0].of, VT(items[i.value], fields[i.value].of)) && FieldsPass(fps[1..], items, fields))
  }

  /** Some test of the pattern does not succeed, after tests that all do: a plain literal below constructors is different
      from the one inside the value, or something else does not fit. */
  predicate Refuses(p: ArmPattern, vt: ValueAndType)
    decreases p, 1
  {
    hide Refuses, Passes, LiteralOf, Inside, LiteralInside, InCase, LiteralBelow;
    if LiteralBelow(p).Some? then
      LiteralInside(p, Some(vt)).Some? && LiteralInside(p, Some(vt)) != LiteralOf(LiteralBelow(p).value)
    else
    match p
    case LiteralPattern(lit) => IsEnum(lit) && EnumCase(vt) != Some(lit.kind.callType.enum_)
    case As(_, q) => Refuses(q, vt)
    case Constructor(name, ps) =>
      var payload := InCase(name, vt);
      payload.None? || (ps != [] && payload.value.Some? && Refuses(ps[0], payload.value.value))
    case TupleConstructor(ps) =>
      (match vt
       case VT(VTuple(items), WTuple(types)) => |ps| <= |items| && |ps| <= |types| ==> ItemsRefuse(ps, items, types)
       case _ => true)
    case RecordConstructor(fps) =>
      (match vt
       case VT(VRecord(items), WRecord(fields)) => |items| == |fields| ==> FieldsRefuse(fps, items, fields)
       case _ => true)
    case _ => !p.WildCard?
  }

  predicate ItemsRefuse(ps: seq<ArmPattern>, items: seq<Value>, types: seq<WitType>)
    requires hide *; |ps| <= |items| && |ps| <= |types|
    decreases ps, 0
  {
    ps != [] &&
    (Refuses(ps[0], VT(items[0], types[0]))
     || (Passes(ps[0], VT(items[0], types[0])) && ItemsRefuse(ps[1..], items[1..], types[1..])))
  }

  predicate FieldsRefuse(fps: seq<Field<ArmPattern>>, items: seq<Value>, fields: seq<Field<WitType>>)
    requires hide *; |items| == |fields|
    decreases fps, 0
  {
    fps != [] &&
    (var i := FieldIndex(fields, fps[0].name);
     i.None? || Refuses(fps[0].of, VT(items[i.value], fields[i.value].of))
     || (Passes(fps[0].of, VT(items[i.value], fields[i.value].of)) && FieldsRefuse(fps[1..], items, fields)))
  }

  /** Under a tag that is not found a pattern is skipped, unless it is a plain literal. */
  lemma {:induction false} SkippedUnder(p: ArmPattern, ty: InferredType, u: Option<ValueAndType>)
    requires Covered(p, ty) && LiteralBelow(p).None?
    ensures Decides(p, false, u).Skipped?
    decreases p
  {
    hide TagName, Unwrapped, Covered, PayloadType, Desugar.Conditions, LiteralOf, Desugar.TagTest;
    CoveredParts(p, ty);
    match p
    case As(_, q) => SkippedUnder(q, ty, u);
    case Constructor(name, ps) =>
      if ps != [] {
        CoveredPayload(name, ps, MkLit(""), MkLit(""), None, ty);
        SkippedUnder(ps[0], PayloadType(name, ty).value, Unwrapped(u));
      }
    case _ =>
  }

  /** What the code decides, on pattern and value. */
  lemma {:induction false} DecidesExactly(p: ArmPattern, ty: InferredType, vt: ValueAndType)
    requires Covered(p, ty) && HasShape(vt.value, vt.typ, ty)
    ensures Decides(p, true, Some(vt)).Taken? <==> Passes(p, vt)
    ensures Decides(p, true, Some(vt)).Skipped? <==> Refuses(p, vt)
    decreases p, 1
  {
    hide HasShape, GetLiteral, LiteralOf, TagName, InCase, Unwrapped, EnumCase, Covered, Decides, ItemsPass,
         ItemsRefuse, FieldsPass, FieldsRefuse, LiteralInside, Inside, PayloadType, Desugar.FindField, DecidesItems;
    CoveredParts(p, ty);
    if LiteralBelow(p).Some? {
      ChainIgnoresTags(p, true, Some(vt));
      LiteralHasValue(p, ty);
    } else {
      match p
      case As(name, q) =>
        DecidesExactly(q, ty, vt);
        AsDecides(name, q, vt);
      case Constructor(name, ps) => CaseExactly(name, ps, ty, vt);
      case TupleConstructor(ps) =>
        TupleFacts(vt, ty);
        ItemsExactly(ps, ty.inner.items, vt.value.items, vt.typ.items);
        ProductsDecide(p, vt);
      case RecordConstructor(fps) =>
        RecordFacts(vt, ty);
        FieldsExactly(fps, ty.inner.fields, vt.value.items, vt.typ.fields);
        ProductsDecide(p, vt);
      case _ => SimpleDecides(p, vt);
    }
  }

  lemma {:induction false} LiteralHasValue(p: ArmPattern, ty: InferredType)
    requires hide *; Covered(p, ty) && LiteralBelow(p).Some?
    ensures LiteralOf(LiteralBelow(p).value).Some?
    decreases p
  {
    hide LiteralOf, PayloadType, Desugar.Conditions, Desugar.TagTest;
    match p
    case As(_, q) => LiteralHasValue(q, ty);
    case Constructor(name, ps) =>
      CoveredPayload(name, ps, MkLit(""), MkLit(""), None, ty);
      LiteralHasValue(ps[0], PayloadType(name, ty).value);
    case _ =>
  }

  lemma AsDecides(name: string, q: ArmPattern, vt: ValueAndType)
    ensures var d, e := Decides(q, true, Some(vt)), Decides(As(name, q), true, Some(vt));
            (e.Taken? <==> d.Taken?) && (e.Skipped? <==> d.Skipped?)
  {
    hide DecidesLiteral, Unwrapped, TagName;
  }

  lemma SimpleDecides(p: ArmPattern, vt: ValueAndType)
    requires LiteralBelow(p).None? && (p.WildCard? || p.LiteralPattern? || p.ListConstructor?)
    ensures Decides(p, true, Some(vt)).Taken? <==> Passes(p, vt)
    ensures Decides(p, true, Some(vt)).Skipped? <==> Refuses(p, vt)
  {
    hide EnumCase, LiteralOf, GetLiteral, InCase;
  }

  lemma {:induction false} ProductsDecide(p: ArmPattern, vt: ValueAndType)
    requires hide *; p.TupleConstructor? || p.RecordConstructor?
    ensures vt.value.VTuple? && vt.typ.WTuple? && p.TupleConstructor? && |p.patterns| <= |vt.value.items| && |p.patterns| <= |vt.typ.items|
            ==> Decides(p, true, Some(vt)) == DecidesItems(p.patterns, vt.value.items, vt.typ.items)
    ensures vt.value.VRecord? && vt.typ.WRecord? && p.RecordConstructor? && |vt.value.items| == |vt.typ.fields|
            ==> Decides(p, true, Some(vt)) == DecidesFields(p.fieldPatterns, vt.value.items, vt.typ.fields)
  {
    hide DecidesItems, DecidesFields, DecidesLiteral, Unwrapped;
  }

  lemma {:induction false} CaseExactly(name: string, ps: seq<ArmPattern>, ty: InferredType, vt: ValueAndType)
    requires Covered(Constructor(name, ps), ty) && HasShape(vt.value, vt.typ, ty) && LiteralBelow(Constructor(name, ps)).None?
    ensures Decides(Constructor(name, ps), true, Some(vt)).Taken? <==> Passes(Constructor(name, ps), vt)
    ensures Decides(Constructor(name, ps), true, Some(vt)).Skipped? <==> Refuses(Constructor(name, ps), vt)
    decreases ps, 0
  {
    hide HasShape, TagName, InCase, Unwrapped, Covered, PayloadType, FieldsPass, Desugar.Conditions, DecidesLiteral,
         LiteralOf;
    if ps == [] {
      CoveredParts(Constructor(name, ps), ty);
      NoneFacts(vt, ty);
    } else {
      CoveredPayload(name, ps, MkLit(""), MkLit(""), None, ty);
      CaseFacts(name, vt, ty);
      if Here(name, true, Some(vt)) {
        HereUnwraps(name, ty, true, Some(vt));
        DecidesExactly(ps[0], PayloadType(name, ty).value, Unwrapped(Some(vt)).value);
      } else {
        SkippedUnder(ps[0], PayloadType(name, ty).value, Unwrapped(Some(vt)));
      }
    }
  }

  lemma {:induction false} ItemsExactly(ps: seq<ArmPattern>, types: seq<InferredType>, items: seq<Value>, wits: seq<WitType>)
    requires hide *; |ps| <= |types| == |items| == |wits| && ItemsCovered(ps, types)
    requires forall k :: 0 <= k < |types| ==> HasShape(items[k], wits[k], types[k])
    ensures DecidesItems(ps, items, wits).Taken? <==> ItemsPass(ps, items, wits)
    ensures DecidesItems(ps, items, wits).Skipped? <==> ItemsRefuse(ps, items, wits)
    decreases ps, 0
  {
    hide HasShape, Covered, Decides, Passes, Refuses;
    if ps != [] {
      DecidesExactly(ps[0], types[0], VT(items[0], wits[0]));
      ItemsExactly(ps[1..], types[1..], items[1..], wits[1..]);
    }
  }

  lemma {:induction false} FieldsExactly(fps: seq<Field<ArmPattern>>, fields: seq<Field<InferredType>>, items: seq<Value>,
                                         wits: seq<Field<WitType>>)
    requires hide *; |fields| == |items| == |wits| && FieldsCovered(fps, fields) && NoRepeats(FieldNamesOf(fields))
    requires forall k :: 0 <= k < |fields| ==> wits[k].name == fields[k].name
    requires forall k :: 0 <= k < |fields| ==> HasShape(items[k], wits[k].of, fields[k].of)
    ensures DecidesFields(fps, items, wits).Taken? <==> FieldsPass(fps, items, wits)
    ensures DecidesFields(fps, items, wits).Skipped? <==> FieldsRefuse(fps, items, wits)
    decreases fps, 0
  {
    hide HasShape, Covered, Decides, Passes, Refuses, FieldIndex, Desugar.FindField;
    if fps != [] {
      var i := FindsField(fields, wits, fps[0].name);
      DecidesExactly(fps[0].of, fields[i].of, VT(items[i], wits[i].of));
      FieldsExactly(fps[1..], fields, items, wits);
    }
  }

  /** Any covered pattern is decided rightly exactly for values it fits, and for values on which a test of it does not succeed
      after tests that all do. */
  lemma RightExactly(p: ArmPattern, ty: InferredType, vt: ValueAndType)
    requires Covered(p, ty) && HasShape(vt.value, vt.typ, ty)
    ensures Right(p, vt) <==> Matches(p, vt).Some? || Refuses(p, vt)
  {
    hide HasShape, Covered, Decides, Matches, Refuses, Passes;
    DecidesExactly(p, ty, vt);
    if Matches(p, vt).Some? {
      FittingIsTaken(p, ty, vt);
    }
  }

  /** The same for the generated condition, with whatever tags are asked for around the pattern: it says whether they are
      found and the pattern fits, exactly for values in all the cases, and for values with a different literal inside. */
  lemma LiteralUnderConstructor<H(!new)>(w: World<H>, p: ArmPattern, res: Expr, pred: Expr, tag: Option<Expr>, ty: InferredType,
                                         b: bool, u: Option<ValueAndType>, env: Env, except: set<VariableId>, h: H)
    requires hide *; LiteralBelow(p).Some? && Covered(p, ty) && Binders(p) <= except
    requires TagHolds(w, tag, b, env, except) && Is(w, pred, u, env, except)
    requires b ==> u.Some? && HasShape(u.value.value, u.value.typ, ty)
    ensures var c := Desugar.Conditions(p, res, pred, tag, ty);
            c.Some? &&
            (Eval(w, c.value.condition, env, h) == Done(Some(MkVal(b && Matches(p, u.value).Some?)), env, h)
             <==> (b && InCases(p, u.value).Some?)
                  || (LiteralInside(p, u).Some? && LiteralInside(p, u) != LiteralOf(LiteralBelow(p).value)))
    ensures LiteralInside(p, u).None? ==> Eval(w, Desugar.Conditions(p, res, pred, tag, ty).value.condition, env, h) == Fault(h)
  {
    hide Decides, Matches, HasShape, InCases, LiteralInside, LiteralOf, Covered, Eval, Agree, Desugar.Conditions,
         Binders, Is, TagHolds, BranchMeans, LiteralBelow;
    PatternMeans(w, p, res, pred, tag, ty, b, u, env, except);
    ChainIgnoresTags(p, b, u);
    ChainMeans(p, ty, b, u);
    AgreeSelf(env, except);
    var c := Desugar.Conditions(p, res, pred, tag, ty).value;
    ConditionIs(w, c, res, Decides(p, b, u), env, except, h);
  }

  lemma ConditionIs<H(!new)>(w: World<H>, c: Desugar.Branch, res: Expr, d: Verdict, env: Env, except: set<VariableId>, h: H)
    requires BranchMeans(w, c, res, d, env, except)
    ensures Eval(w, c.condition, env, h) == if d.Broken? then Fault(h) else Done(Some(MkVal(d.Taken?)), env, h)
  {
    hide Eval, Binds;
    assert Agree(env, env, except);
  }

  lemma AgreeSelf(env: Env, except: set<VariableId>)
    ensures Agree(env, env, except)
  {
  }
}
