/** What programs compute, construct by construct: the order in which operands are evaluated, the arithmetic of the
    operators, what literals and constructions make, which call the host gets, and what loops do item by item. */
module Meanings {
  import opened Syntax
  import opened Values
  import opened Machine
  import opened ByteCode
  import opened Evaluation
  import opened Running
  import opened Simulation
  import opened MatchDesugaring
  import opened Operations

  // ---------- operands ----------

  /** The values of expressions that are evaluated from the last one to the first one. */
  function FromTheRight<H>(w: World<H>, es: seq<Expr>, env: Env, h: H): Outcomes<H> {
    hide Eval;
    if es == [] then AllDone([], env, h) else
    match FromTheRight(w, es[1..], env, h)
    case AllFault(h1) => AllFault(h1)
    case AllDone(vs, env1, h1) =>
      var o := Eval(w, es[0], env1, h1);
      if Gives(o) then AllDone([o.v.value] + vs, o.env, o.h) else AllFault(o.h)
  }

  lemma {:induction false} ValuesCount<H>(w: World<H>, es: seq<Expr>, env: Env, h: H)
    requires hide *; FromTheRight(w, es, env, h).AllDone?
    ensures |FromTheRight(w, es, env, h).vs| == |es|
  {
    hide Eval;
    if es != [] {
      ValuesCount(w, es[1..], env, h);
    }
  }

  lemma {:induction false} OperandsFromTheRight<H>(w: World<H>, es: seq<Expr>, env: Env, h: H)
    ensures hide *;
            EvalAll(w, Reverse(es), env, h) == match FromTheRight(w, es, env, h)
                                               case AllFault(h1) => AllFault(h1)
                                               case AllDone(vs, env1, h1) => AllDone(Reverse(vs), env1, h1)
    decreases |es|
  {
    hide Eval, EvalAll;
    if es == [] {
      EvalNone(w, env, h);
      assert Reverse(es) == [] && Reverse<StackValue>([]) == [];
    } else {
      OperandsFromTheRight(w, es[1..], env, h);
      EvalLastOperand(w, Reverse(es[1..]), es[0], env, h);
      assert Reverse(es) == Reverse(es[1..]) + [es[0]];
      var r := FromTheRight(w, es[1..], env, h);
      if r.AllDone? {
        var o := Eval(w, es[0], r.env, r.h);
        if Gives(o) {
          assert ([o.v.value] + r.vs)[1..] == r.vs;
          assert Reverse([o.v.value] + r.vs) == Reverse(r.vs) + [o.v.value];
        }
      }
    }
  }

  lemma {:induction false} StrictMeans<H>(w: World<H>, e: Expr, parts: seq<Expr>, env: Env, h: H)
    requires hide *; IsStrict(e) && Ops(e) == Reverse(parts)
    ensures var r := FromTheRight(w, parts, env, h);
            Eval(w, e, env, h) == match r
                                  case AllFault(h1) => Fault(h1)
                                  case AllDone(vs, env1, h1) =>
                                    if |vs| != |Ops(e)| then Fault(h1) else
                                    match Combine(w, e, vs, env1, h1)
                                    case Answer(v, h2) => Done(Some(v), env1, h2)
                                    case NoAnswer(h2) => Fault(h2)
  {
    hide Eval, EvalAll, Combine, Ops, IsStrict, FromTheRight, Reverse;
    EvalStrict(w, e, env, h);
    OperandsFromTheRight(w, parts, env, h);
    var r := FromTheRight(w, parts, env, h);
    if r.AllDone? {
      ReverseTwice(r.vs);
    }
  }

  // ---------- operators ----------

  /** A value after its operands, or an error. */
  function Yielded<H>(v: Option<StackValue>, env: Env, h: H): Outcome<H> {
    if v.Some? then Done(v, env, h) else Fault(h)
  }

  /** The right operand comes first. */
  lemma {:induction false} BinaryMeans<H>(w: World<H>, e: Expr, env: Env, h: H)
    requires hide Eval, BinaryValue; e.kind.Binary? && IsStrict(e)
    ensures var r := Eval(w, e.kind.rhs, env, h);
            Eval(w, e, env, h)
            == if !Gives(r) then Fault(r.h) else
               var l := Eval(w, e.kind.lhs, r.env, r.h);
               if !Gives(l) then Fault(l.h)
               else Yielded(BinaryValue(e.kind.binary, e.ty, l.v.value, r.v.value), l.env, l.h)
  {
    hide Eval, EvalAll, BinaryValue, UnaryValue, LeafValue, CallValue, ListValue, WitOf, RecordValue;
    EvalStrict(w, e, env, h);
    assert Ops(e) == ([] + [e.kind.rhs]) + [e.kind.lhs];
    EvalLastOperand(w, [] + [e.kind.rhs], e.kind.lhs, env, h);
    EvalLastOperand(w, [], e.kind.rhs, env, h);
    EvalNone(w, env, h);
    var r := Eval(w, e.kind.rhs, env, h);
    if Gives(r) {
      var l := Eval(w, e.kind.lhs, r.env, r.h);
      if Gives(l) {
        assert Reverse(([] + [r.v.value]) + [l.v.value]) == [l.v.value, r.v.value];
      }
    }
  }

  /** Arithmetic on the values of the operands, or an error. */
  lemma {:induction false} MathMeans<H>(w: World<H>, e: Expr, env: Env, h: H)
    requires hide Eval, Calculates, WitOf; e.kind.Binary? && e.kind.binary.Math?
    ensures var z, r := Eval(w, e, env, h), Eval(w, e.kind.rhs, env, h);
            if !Gives(r) then z == Fault(r.h) else
            var l := Eval(w, e.kind.lhs, r.env, r.h);
            if !Gives(l) || WitOf(e.ty).None? then z == Fault(l.h) else
            var v := if z.Done? then z.v else None;
            && z == Yielded(v, l.env, l.h)
            && Calculates(e.kind.binary.math, WitOf(e.ty).value, l.v.value, r.v.value, v)
  {
    hide Eval, Calculates, MathValues, WitOf;
    BinaryMeans(w, e, env, h);
    var r := Eval(w, e.kind.rhs, env, h);
    if Gives(r) {
      var l := Eval(w, e.kind.lhs, r.env, r.h);
      if Gives(l) && WitOf(e.ty).Some? {
        MathCalculates(e.kind.binary.math, WitOf(e.ty).value, l.v.value, r.v.value);
      }
    }
  }

  predicate Holds(op: CmpOp, less: bool, same: bool, more: bool) {
    match op
    case EqualTo => same
    case LessThan => less
    case GreaterThan => more
    case LessThanOrEqualTo => less || same
    case GreaterThanOrEqualTo => more || same
  }

  /** Operands with values. */
  predicate Operated<H>(w: World<H>, e: Expr, env: Env, h: H)
    requires e.kind.Binary?
  {
    hide Eval;
    var r := Eval(w, e.kind.rhs, env, h);
    Gives(r) && Gives(Eval(w, e.kind.lhs, r.env, r.h))
  }

  lemma {:induction false} ComparisonMeans<H>(w: World<H>, e: Expr, env: Env, h: H)
    requires hide Eval, CompareValues; e.kind.Binary? && e.kind.binary.Compare? && Operated(w, e, env, h)
    ensures var r := Eval(w, e.kind.rhs, env, h); var l := Eval(w, e.kind.lhs, r.env, r.h);
            Eval(w, e, env, h) == Yielded(CompareValues(e.kind.binary.cmp, l.v.value, r.v.value), l.env, l.h)
  {
    hide Eval, CompareValues;
    BinaryMeans(w, e, env, h);
  }

  /** Numbers are compared by size, of whatever kinds they are. */
  lemma {:induction false} NumbersMean<H>(w: World<H>, e: Expr, env: Env, h: H, k: NumberKind, x: real, m: NumberKind,
                                          y: real)
    requires hide Eval, IsNumber; e.kind.Binary? && e.kind.binary.Compare? && Operated(w, e, env, h)
    requires var r := Eval(w, e.kind.rhs, env, h); IsNumber(Eval(w, e.kind.lhs, r.env, r.h).v.value, k, x) && IsNumber(r.v.value, m, y)
    ensures var r := Eval(w, e.kind.rhs, env, h); var l := Eval(w, e.kind.lhs, r.env, r.h);
            Eval(w, e, env, h) == Done(Some(Val(VT(VBool(Holds(e.kind.binary.cmp, x < y, x == y, x > y)), WBool))), l.env, l.h)
  {
    hide Eval, CompareValues, IsNumber;
    ComparisonMeans(w, e, env, h);
    var r := Eval(w, e.kind.rhs, env, h);
    NumbersCompare(Eval(w, e.kind.lhs, r.env, r.h).v.value, r.v.value, k, x, m, y);
  }

  /** Texts are compared character by character. */
  lemma {:induction false} TextsMean<H>(w: World<H>, e: Expr, env: Env, h: H, a: string, b: string)
    requires hide Eval, Reads, Before; e.kind.Binary? && e.kind.binary.Compare? && Operated(w, e, env, h)
    requires var r := Eval(w, e.kind.rhs, env, h); Reads(Eval(w, e.kind.lhs, r.env, r.h).v.value, a) && Reads(r.v.value, b)
    ensures var r := Eval(w, e.kind.rhs, env, h); var l := Eval(w, e.kind.lhs, r.env, r.h);
            Eval(w, e, env, h)
            == Done(Some(Val(VT(VBool(Holds(e.kind.binary.cmp, Before(a, b), a == b, Before(b, a))), WBool))), l.env, l.h)
  {
    hide Eval, CompareValues, Reads, Before;
    ComparisonMeans(w, e, env, h);
    var r := Eval(w, e.kind.rhs, env, h);
    TextsCompare(Eval(w, e.kind.lhs, r.env, r.h).v.value, r.v.value, a, b);
  }

  lemma {:induction false} NegationMeans<H>(w: World<H>, e: Expr, env: Env, h: H, b: bool)
    requires hide Eval; e.kind.Unary? && e.kind.unary.Not?
    requires var o := Eval(w, e.kind.arg, env, h); Gives(o) && IsBool(o.v.value, b)
    ensures var o := Eval(w, e.kind.arg, env, h); Eval(w, e, env, h) == Done(Some(Val(VT(VBool(!b), WBool))), o.env, o.h)
  {
    hide Eval, Weight;
    EvalUnaryStep(w, e, env, h);
  }

  /** The number of items of a list, as an unsigned number of 64 bits. */
  lemma {:induction false} LengthMeans<H>(w: World<H>, e: Expr, env: Env, h: H, items: seq<Value>, t: WitType)
    requires hide Eval; e.kind.Unary? && e.kind.unary.Length?
    requires var o := Eval(w, e.kind.arg, env, h); Gives(o) && o.v.value == Val(VT(VList(items), t))
    ensures var o := Eval(w, e.kind.arg, env, h);
            Eval(w, e, env, h) == Done(Some(Val(VT(VNum(U64, |items| as real), WNum(U64)))), o.env, o.h)
  {
    hide Eval, Weight;
    EvalUnaryStep(w, e, env, h);
  }

  // ---------- number literals ----------

  /** The whole number towards zero. */
  predicate Cut(n: real, i: int) {
    if n >= 0.0 then i as real <= n < i as real + 1.0 else i as real - 1.0 < n <= i as real
  }

  /** A number is what is written, at the inferred kind; for the integers its fraction is cut off, and it has to fit. */
  lemma {:induction false} NumberMeans<H>(w: World<H>, e: Expr, k: NumberKind, env: Env, h: H, i: int)
    requires hide *; e.kind.Atom? && e.kind.leaf.Number? && WitOf(e.ty) == Some(WNum(k)) && Cut(e.kind.leaf.number, i)
    ensures k in FLOATS ==> Eval(w, e, env, h) == Done(Some(Val(VT(VNum(k, e.kind.leaf.number), WNum(k)))), env, h)
    ensures k !in FLOATS ==>
      Eval(w, e, env, h) == if InRange(k, i) then Done(Some(Val(VT(VNum(k, i as real), WNum(k)))), env, h) else Fault(h)
  {
    hide Eval, WitOf, MinOf, MaxOf, IsFloat, IsSigned, InRange, Cut;
    EvalLeaf(w, e, env, h);
    RangesAre(k, i);
    CutDown(e.kind.leaf.number, i);
  }

  lemma CutDown(n: real, i: int)
    requires Cut(n, i)
    ensures i == if n >= 0.0 then n.Floor else -((-n).Floor)
  {
  }

  // ---------- types ----------

  /** How the type of a component's function or value becomes an inferred type. */
  function TypeOf(t: WitType): InferredType
    decreases t, 0
  {
    hide *;
    Plain(match t
          case WBool => TBool
          case WNum(k) => TNum(k)
          case WChr => TChr
          case WStr => TStr
          case WList(e) => TList(TypeOf(e))
          case WTuple(ts) => TTuple(TypesOfAll(ts))
          case WRecord(fs) => TRecord(TypesOfFields(fs))
          case WFlags(names) => TFlags(names)
          case WEnum(cases) => TEnum(cases)
          case WOption(s) => TOption(TypeOf(s))
          case WResult(ok, err) =>
            TResult(if ok.Some? then Some(TypeOf(ok.value)) else None, if err.Some? then Some(TypeOf(err.value)) else None)
          case WVariant(vs) => TVariant(TypesOfCases(vs))
          case WHandle(id, owned) => TResource(id, if owned then 0 else 1, None, None))
  }

  function TypesOfAll(ts: seq<WitType>): (r: seq<InferredType>)
    decreases ts
  {
    hide *;
    if ts == [] then [] else [TypeOf(ts[0])] + TypesOfAll(ts[1..])
  }

  function TypesOfFields(fs: seq<Field<WitType>>): seq<Field<InferredType>>
    decreases fs
  {
    hide *;
    if fs == [] then [] else [Field(fs[0].name, TypeOf(fs[0].of))] + TypesOfFields(fs[1..])
  }

  function TypesOfCases(vs: seq<Field<Option<WitType>>>): seq<Field<Option<InferredType>>>
    decreases vs
  {
    hide *;
    if vs == [] then []
    else [Field(vs[0].name, if vs[0].of.Some? then Some(TypeOf(vs[0].of.value)) else None)] + TypesOfCases(vs[1..])
  }

  /** The byte code carries the types that went in. */
  lemma {:induction false} TypeThereAndBack(t: WitType)
    ensures hide *; WitOf(TypeOf(t)) == Some(t)
    decreases t, 0
  {
    hide WitOfAll, WitOfFields, WitOfCases, TypesOfAll, TypesOfFields, TypesOfCases;
    match t {
      case WList(e) => TypeThereAndBack(e);
      case WOption(s) => TypeThereAndBack(s);
      case WTuple(ts) => TypesThereAndBack(ts);
      case WRecord(fs) => FieldsThereAndBack(fs);
      case WVariant(vs) => CasesThereAndBack(vs);
      case WResult(ok, err) =>
        if ok.Some? { TypeThereAndBack(ok.value); }
        if err.Some? { TypeThereAndBack(err.value); }
      case _ =>
    }
  }

  lemma {:induction false} TypesThereAndBack(ts: seq<WitType>)
    ensures hide *; WitOfAll(TypesOfAll(ts)) == Some(ts)
    decreases ts
  {
    hide TypeOf, WitOf;
    if ts != [] {
      TypeThereAndBack(ts[0]);
      TypesThereAndBack(ts[1..]);
      assert TypesOfAll(ts)[1..] == TypesOfAll(ts[1..]) && ts == [ts[0]] + ts[1..];
    }
  }

  lemma {:induction false} FieldsThereAndBack(fs: seq<Field<WitType>>)
    ensures hide *; WitOfFields(TypesOfFields(fs)) == Some(fs)
    decreases fs
  {
    hide TypeOf, WitOf;
    if fs != [] {
      TypeThereAndBack(fs[0].of);
      FieldsThereAndBack(fs[1..]);
      assert TypesOfFields(fs)[1..] == TypesOfFields(fs[1..]) && fs == [fs[0]] + fs[1..];
    }
  }

  lemma {:induction false} CasesThereAndBack(vs: seq<Field<Option<WitType>>>)
    ensures hide *; WitOfCases(TypesOfCases(vs)) == Some(vs)
    decreases vs
  {
    hide TypeOf, WitOf;
    if vs != [] {
      if vs[0].of.Some? {
        TypeThereAndBack(vs[0].of.value);
      }
      CasesThereAndBack(vs[1..]);
      assert TypesOfCases(vs)[1..] == TypesOfCases(vs[1..]) && vs == [vs[0]] + vs[1..];
    }
  }

  /** Ranges are carried as records, instances as names or handles, results as they are or not at all; nothing ambiguous or
      unknown is carried, and a side of a result that cannot be carried is left out. */
  lemma {:induction false} OtherTypesBack(a: WitType, b: WitType, t: InferredType, u: InferredType)
    ensures WitOf(Plain(TRange(TypeOf(a), Some(TypeOf(b))))) == Some(WRecord([Field("from", a), Field("to", b), Field("inclusive", WBool)]))
    ensures WitOf(Plain(TRange(TypeOf(a), None))) == Some(WRecord([Field("from", a), Field("inclusive", WBool)]))
    ensures t.inner.TInstance? ==>
      WitOf(t) == Some(if t.inner.instance.ResourceInstance? then WHandle(t.inner.instance.id, t.inner.instance.mode == 0) else WStr)
    ensures WitOf(Plain(TSequence([]))) == Some(WTuple([])) && WitOf(Plain(TSequence([t]))) == WitOf(t)
    ensures WitOf(Plain(TSequence([t, u]))) == None
    ensures t.inner.TAllOf? || t.inner.TUnknown? ==> WitOf(t) == None && WitOf(Plain(TList(t))) == None
    ensures t.inner.TAllOf? || t.inner.TUnknown? ==> WitOf(Plain(TResult(Some(t), Some(TypeOf(a))))) == Some(WResult(None, Some(a)))
  {
    hide TypeOf;
    TypeThereAndBack(a);
    TypeThereAndBack(b);
  }

  // ---------- constructions ----------

  /** A list has the values of its expressions, in their order. */
  lemma {:induction false} ListMeans<H>(w: World<H>, e: Expr, elem: WitType, env: Env, h: H)
    requires hide WitOf, Eval, FromTheRight; e.kind.ListOf? && e.kind.listOp.Sequence? && WitOf(e.ty) == Some(WList(elem))
    ensures var z, r := Eval(w, e, env, h), FromTheRight(w, e.kind.exprs, env, h);
            if r.AllFault? || exists v :: v in r.vs && !v.Val? then z == Fault(r.h) else
            && Gives(z) && z.env == r.env && z.h == r.h && z.v.value.Val? && z.v.value.vt.typ == WList(elem)
            && z.v.value.vt.value.VList? && |z.v.value.vt.value.items| == |r.vs| == |e.kind.exprs|
            && forall i :: 0 <= i < |r.vs| ==> z.v.value.vt.value.items[i] == r.vs[i].vt.value
  {
    hide Eval, WitOf, FromTheRight, AllVals, MakeList, Reverse, BinaryValue, UnaryValue, LeafValue, CallValue;
    StrictMeans(w, e, e.kind.exprs, env, h);
    var r := FromTheRight(w, e.kind.exprs, env, h);
    if r.AllDone? {
      ValuesCount(w, e.kind.exprs, env, h);
      ListOfVals(elem, r.vs);
    }
  }

  lemma {:induction false} ListOfVals(elem: WitType, vs: seq<StackValue>)
    ensures (exists v :: v in vs && !v.Val?) ==> MakeList(WList(elem), vs) == None
    ensures (forall v :: v in vs ==> v.Val?) ==>
      var x := MakeList(WList(elem), vs);
      && x.Some? && x.value.Val? && x.value.vt.value.VList? && x.value.vt.typ == WList(elem) && |x.value.vt.value.items| == |vs|
      && forall i :: 0 <= i < |vs| ==> x.value.vt.value.items[i] == vs[i].vt.value
  {
    hide AllVals;
    AllAreVals(vs);
    if forall v :: v in vs ==> v.Val? {
      ListMade(elem, vs);
    }
  }

  lemma {:induction false} OthersStay(record: StackValue, names: seq<string>, vs: seq<StackValue>, name: string)
    requires hide *; |names| == |vs| && name !in names && RecordValue(Some(record), names, vs).Some?
    ensures SelectFieldOf(name, RecordValue(Some(record), names, vs).value) == SelectFieldOf(name, record)
    decreases |names|
  {
    hide SelectFieldOf, UpdateField;
    if names != [] {
      FieldSet(names[0], name, record, vs[0]);
      OthersStay(UpdateField(names[0], record, vs[0]).value, names[1..], vs[1..], name);
    }
  }

  lemma {:induction false} LastSet(record: StackValue, names: seq<string>, vs: seq<StackValue>, i: nat)
    requires i < |names| == |vs| && names[i] !in names[i + 1..] && RecordValue(Some(record), names, vs).Some?
    ensures var x := SelectFieldOf(names[i], RecordValue(Some(record), names, vs).value);
            x.Some? && x.value.Val? && vs[i].Val? && x.value.vt.value == vs[i].vt.value
    decreases |names|
  {
    hide SelectFieldOf, UpdateField;
    var next := UpdateField(names[0], record, vs[0]);
    FieldSet(names[0], names[0], record, vs[0]);
    if i == 0 {
      OthersStay(next.value, names[1..], vs[1..], names[0]);
    } else {
      assert names[1..][i..] == names[i + 1..];
      LastSet(next.value, names[1..], vs[1..], i - 1);
    }
  }

  lemma RecordBegun(record: Option<StackValue>, names: seq<string>, vs: seq<StackValue>)
    requires hide *; |names| == |vs| && RecordValue(record, names, vs).Some?
    ensures record.Some?
  {
  }

  lemma {:induction false} NamesInOrder(fs: seq<Field<Expr>>, i: nat)
    requires i < |fs|
    ensures Names(fs)[i] == fs[i].name && |Exprs(fs)| == |fs| && Exprs(fs)[i] == fs[i].of
    decreases |fs|
  {
    if i > 0 {
      NamesInOrder(fs[1..], i - 1);
    } else if |fs| > 1 {
      NamesInOrder(fs[1..], 0);
    }
  }

  /** A record has the value of an expression in its field; of the fields with the same name, that of the last one. */
  lemma {:induction false} RecordMeans<H>(w: World<H>, e: Expr, env: Env, h: H, i: nat)
    requires hide Eval; e.kind.Record? && Gives(Eval(w, e, env, h))
    requires i < |e.kind.fields| && forall j :: i < j < |e.kind.fields| ==> e.kind.fields[j].name != e.kind.fields[i].name
    ensures var z, r := Eval(w, e, env, h), FromTheRight(w, Exprs(e.kind.fields), env, h);
            var x := SelectFieldOf(e.kind.fields[i].name, z.v.value);
            && r.AllDone? && z.env == r.env && z.h == r.h && |r.vs| == |e.kind.fields|
            && r.vs[i].Val? && x.Some? && x.value.Val? && x.value.vt.value == r.vs[i].vt.value
  {
    hide Eval, WitOf, FromTheRight, RecordValue, Names, Exprs, SelectFieldOf, Reverse, BinaryValue, UnaryValue, LeafValue, CallValue;
    var fs := e.kind.fields;
    StrictMeans(w, e, Exprs(fs), env, h);
    NamesInOrder(fs, i);
    ValuesCount(w, Exprs(fs), env, h);
    var r := FromTheRight(w, Exprs(fs), env, h);
    forall j | i < j < |fs| ensures Names(fs)[j] != Names(fs)[i] {
      NamesInOrder(fs, j);
    }
    assert Names(fs)[i] !in Names(fs)[i + 1..];
    RecordBegun(EmptyRecord(WitOf(e.ty).value), Names(fs), r.vs);
    LastSet(EmptyRecord(WitOf(e.ty).value).value, Names(fs), r.vs, i);
  }

  // ---------- instances ----------

  /** The variable of the instance that a variable stands for. */
  predicate InstanceVariable(v: VariableId, x: VariableId) {
    match v
    case Global(name) => x == Global("__instance_" + name)
    case Local(name, None) => x == Global("__instance_" + name)
    case Local(name, Some(id)) => x == Global("__instance_" + name + "-" + Digits(id))
    case MatchIdentifier(name, arm) => x == Global("__instance_" + name + "-" + Digits(arm))
    case ListComprehension(name) => x == Global("__instance_" + name)
    case ListReduce(name) => x == Global("__instance_" + name)
  }

  /** The name of an instance is the value of its variable; only without one a name is made up. */
  lemma {:induction false} InstanceMeans<H>(w: World<H>, e: Expr, v: VariableId, x: VariableId, env: Env, h: H)
    requires hide *; e.kind.Atom? && e.kind.leaf == GenerateWorkerName(Some(v)) && InstanceVariable(v, x)
    ensures Eval(w, e, env, h)
            == if x !in env then Done(Some(Val(VT(VStr(w.name(h).1), WStr))), env, w.name(h).0)
               else if env[x].Val? then Done(Some(env[x]), env, h)
               else Fault(h)
  {
    hide Eval, WitOf, InstanceVariable, AsInstanceVariable;
    EvalLeaf(w, e, env, h);
    VariableOfInstance(v, x);
  }

  lemma VariableOfInstance(v: VariableId, x: VariableId)
    requires InstanceVariable(v, x)
    ensures AsInstanceVariable(v) == x
  {
    hide Digits;
    match v {
      case Local(name, Some(id)) => assert "__instance_" + name + "-" + Digits(id) == "__instance_" + (name + "-" + Digits(id));
      case MatchIdentifier(name, arm) => assert "__instance_" + name + "-" + Digits(arm) == "__instance_" + (name + "-" + Digits(arm));
      case _ =>
    }
  }

  // ---------- calls ----------

  function Bare(vs: seq<StackValue>): seq<ValueAndType>
    requires forall v :: v in vs ==> v.Val?
  {
    seq(|vs|, i requires 0 <= i < |vs| => vs[i].vt)
  }

  lemma BareVals(vs: seq<StackValue>)
    requires hide *; forall v :: v in vs ==> v.Val?
    ensures AllVals(vs) == Some(Bare(vs))
  {
    hide AllVals;
    AllValsAre(vs);
    assert AllVals(vs).value == Bare(vs);
  }

  /** The host is called, and its answer is the value; no value is unit. */
  function Called<H>(w: World<H>, c: CallRecord, env: Env, h: H): Outcome<H> {
    var (h1, answer) := w.invoke(h, 0, c);
    if answer.None? then Fault(h1) else Done(Some(if answer.value.Some? then Val(answer.value.value) else Unit), env, h1)
  }

  /** Arguments that are values. */
  predicate Argued<H>(w: World<H>, e: Expr, env: Env, h: H)
    requires e.kind.Call?
  {
    hide Eval;
    var r := FromTheRight(w, e.kind.args, env, h);
    r.AllDone? && forall v :: v in r.vs ==> v.Val?
  }

  /** The name of an instance: a text, or the text of a truth value or of a number. */
  predicate NamesInstance<H>(w: World<H>, v: StackValue, instance: string) {
    || Reads(v, instance)
    || (IsBool(v, true) && instance == "true")
    || (IsBool(v, false) && instance == "false")
    || (v.Val? && v.vt.value.VNum? && instance == w.text(v.vt))
  }

  lemma {:induction false} InstanceNamed<H>(w: World<H>, x: VariableId, v: StackValue, instance: string, env: Env,
                                            args: seq<ValueAndType>)
    requires hide *; NamesInstance(w, v, instance) && x in env && env[x] == v
    ensures Resolve(w.text, WitWorker(x), env, args) == Some((instance, args))
  {
    hide GetLiteral, Reads;
    if Reads(v, instance) {
      TextLiteral(v, instance);
    } else {
      OtherLiteral(v);
    }
  }

  lemma OtherLiteral(v: StackValue)
    requires v.Val? && (v.vt.value.VNum? || v.vt.value.VBool?)
    ensures GetLiteral(v.vt) == Some(if v.vt.value.VNum? then LNum(v.vt.value.n) else LBool(v.vt.value.b))
  {
  }

  lemma {:induction false} FunctionCalled<H>(w: World<H>, e: Expr, component: int, env: Env, h: H)
    requires hide Eval, FromTheRight; e.kind.Call? && e.kind.callType.Function? && e.kind.callType.component == Some(component)
    requires Argued(w, e, env, h) && CallReceiver(e.kind.callType.receiver).Ok?
    ensures var r := FromTheRight(w, e.kind.args, env, h);
            var callee := Resolve(w.text, CallReceiver(e.kind.callType.receiver).value, r.env, Bare(r.vs));
            Eval(w, e, env, h)
            == if callee.None? then Fault(r.h)
               else Called(w, CallRecord(component, callee.value.0, e.kind.callType.name, callee.value.1,
                                         if e.ty.inner == TSequence([]) then None else WitOf(e.ty)), r.env, r.h)
  {
    hide Eval, FromTheRight, Resolve, WitOf, AllVals, Reverse, BinaryValue, UnaryValue, LeafValue, ListValue, CallReceiver;
    StrictMeans(w, e, e.kind.args, env, h);
    ValuesCount(w, e.kind.args, env, h);
    BareVals(FromTheRight(w, e.kind.args, env, h).vs);
  }

  /** A call to a worker goes to the instance named in its variable, with the arguments in their order. */
  lemma {:induction false} WorkerCalled<H>(w: World<H>, e: Expr, v: VariableId, instance: string, component: int, env: Env,
                                           h: H)
    requires hide Eval, FromTheRight, NamesInstance;
             e.kind.Call? && e.kind.callType.Function? && e.kind.callType.component == Some(component) && Argued(w, e, env, h)
    requires e.kind.callType.receiver.WorkerReceiver? && e.kind.callType.receiver.worker == Some(v)
    requires var now := FromTheRight(w, e.kind.args, env, h).env; v in now && NamesInstance(w, now[v], instance)
    ensures var r := FromTheRight(w, e.kind.args, env, h);
            Eval(w, e, env, h) == Called(w, CallRecord(component, instance, e.kind.callType.name, Bare(r.vs),
                                                       if e.ty.inner == TSequence([]) then None else WitOf(e.ty)), r.env, r.h)
  {
    hide Eval, FromTheRight, WitOf, NamesInstance, Resolve, Called;
    FunctionCalled(w, e, component, env, h);
    var r := FromTheRight(w, e.kind.args, env, h);
    InstanceNamed(w, v, r.env[v], instance, r.env, Bare(r.vs));
  }

  /** A resource is made by a call to its worker. */
  lemma {:induction false} ResourceMade<H>(w: World<H>, e: Expr, v: VariableId, instance: string, component: int, env: Env,
                                           h: H)
    requires hide Eval, FromTheRight, NamesInstance;
             e.kind.Call? && e.kind.callType.ResourceCreation? && e.kind.callType.component == Some(component) && Argued(w, e, env, h)
    requires e.kind.callType.owner.WorkerReceiver? && e.kind.callType.owner.worker == Some(v)
    requires var now := FromTheRight(w, e.kind.args, env, h).env; v in now && NamesInstance(w, now[v], instance)
    ensures var r := FromTheRight(w, e.kind.args, env, h);
            Eval(w, e, env, h) == Called(w, CallRecord(component, instance, e.kind.callType.resource, Bare(r.vs),
                                                       if e.ty.inner == TSequence([]) then None else WitOf(e.ty)), r.env, r.h)
  {
    hide Eval, FromTheRight, WitOf, NamesInstance, Resolve, AllVals, Reverse, BinaryValue, UnaryValue, LeafValue, ListValue;
    StrictMeans(w, e, e.kind.args, env, h);
    ValuesCount(w, e.kind.args, env, h);
    var r := FromTheRight(w, e.kind.args, env, h);
    BareVals(r.vs);
    InstanceNamed(w, v, r.env[v], instance, r.env, Bare(r.vs));
  }

  /** A resource made from a resource: by a call that has it as its first argument. */
  lemma {:induction false} ResourceFromResource<H>(w: World<H>, e: Expr, v: VariableId, component: int, env: Env, h: H)
    requires hide Eval, FromTheRight;
             e.kind.Call? && e.kind.callType.ResourceCreation? && e.kind.callType.component == Some(component) && Argued(w, e, env, h)
    requires e.kind.callType.owner.ResourceReceiver? && e.kind.callType.owner.resource == Some(v) && v != Global(STATIC_WIT_RESOURCE)
    requires var now := FromTheRight(w, e.kind.args, env, h).env; v in now && now[v].Val? && now[v].vt.value.VHandle?
    ensures var r := FromTheRight(w, e.kind.args, env, h);
            var handle := r.env[v].vt.value;
            Eval(w, e, env, h)
            == Called(w, CallRecord(component, if handle.instance != "" then handle.instance else AfterLastSlash(handle.uri),
                                    e.kind.callType.resource, [r.env[v].vt] + Bare(r.vs),
                                    if e.ty.inner == TSequence([]) then None else WitOf(e.ty)), r.env, r.h)
  {
    hide Eval, FromTheRight, WitOf, AfterLastSlash, AllVals, Reverse, BinaryValue, UnaryValue, LeafValue, ListValue;
    StrictMeans(w, e, e.kind.args, env, h);
    ValuesCount(w, e.kind.args, env, h);
    BareVals(FromTheRight(w, e.kind.args, env, h).vs);
  }

  /** A resource is the first argument of its methods, which go to the instance that has it. */
  lemma {:induction false} MethodCalled<H>(w: World<H>, e: Expr, v: VariableId, component: int, env: Env, h: H)
    requires hide Eval, FromTheRight;
             e.kind.Call? && e.kind.callType.Function? && e.kind.callType.component == Some(component) && Argued(w, e, env, h)
    requires e.kind.callType.receiver.ResourceReceiver? && e.kind.callType.receiver.resource == Some(v)
    requires var now := FromTheRight(w, e.kind.args, env, h).env; v in now && now[v].Val? && now[v].vt.value.VHandle?
    requires v != Global(STATIC_WIT_RESOURCE)
    ensures var r := FromTheRight(w, e.kind.args, env, h);
            var handle := r.env[v].vt.value;
            Eval(w, e, env, h)
            == Called(w, CallRecord(component, if handle.instance != "" then handle.instance else AfterLastSlash(handle.uri),
                                    e.kind.callType.name, [r.env[v].vt] + Bare(r.vs), if e.ty.inner == TSequence([]) then None else WitOf(e.ty)),
                      r.env, r.h)
  {
    hide Eval, FromTheRight, WitOf, AfterLastSlash, Called;
    FunctionCalled(w, e, component, env, h);
  }

  /** A static function of a resource has only its own arguments. */
  lemma {:induction false} StaticCalled<H>(w: World<H>, e: Expr, component: int, env: Env, h: H)
    requires hide Eval, FromTheRight;
             e.kind.Call? && e.kind.callType.Function? && e.kind.callType.component == Some(component) && Argued(w, e, env, h)
    requires e.kind.callType.receiver.ResourceReceiver? && e.kind.callType.receiver.resource == None
    ensures var r := FromTheRight(w, e.kind.args, env, h);
            Eval(w, e, env, h) == Called(w, CallRecord(component, STATIC_WIT_RESOURCE, e.kind.callType.name, Bare(r.vs),
                                                       if e.ty.inner == TSequence([]) then None else WitOf(e.ty)), r.env, r.h)
  {
    hide Eval, FromTheRight, WitOf, Called;
    FunctionCalled(w, e, component, env, h);
  }

  /** The name of an instance is what follows the last slash of its address. */
  lemma {:induction false} LastPart(s: string)
    ensures hide *; '/' !in AfterLastSlash(s)
    ensures if '/' in s then |AfterLastSlash(s)| < |s| && s[|s| - |AfterLastSlash(s)| - 1..] == "/" + AfterLastSlash(s)
            else AfterLastSlash(s) == s
  {
    if s != [] && '/' in s[1..] {
      LastPart(s[1..]);
      var n := |s| - |AfterLastSlash(s)| - 1;
      assert s[1..][n - 1..] == s[n..];
    } else if s != [] {
      assert forall c :: c in s ==> c == s[0] || c in s[1..];
      assert s == [s[0]] + s[1..];
    }
  }

  // ---------- loops ----------

  /** What a loop goes through: the items of a list in their order, or the numbers of a range. */
  predicate GoesThrough(v: StackValue, items: seq<ValueAndType>) {
    match v
    case Val(VT(VList(vs), WList(elem))) => |items| == |vs| && forall i :: 0 <= i < |vs| ==> items[i] == VT(vs[i], elem)
    case Val(VT(VRecord(vs), WRecord(_))) => |vs| >= 3 && Counted(vs[0], vs[1], vs[2], items)
    case _ => false
  }

  predicate Counted(from: Value, end: Value, inclusive: Value, items: seq<ValueAndType>) {
    && from.VNum? && end.VNum? && inclusive.VBool? && from.kind == end.kind && from.kind !in FLOATS
    && var a, b := from.n.Floor, end.n.Floor + if inclusive.b then 1 else 0;
       && |items| == (if a < b then b - a else 0)
       && forall i :: 0 <= i < |items| ==> items[i] == VT(VNum(from.kind, (a + i) as real), WNum(from.kind))
  }

  lemma IteratesOver(v: StackValue, items: seq<ValueAndType>)
    ensures GoesThrough(v, items) <==> Iterated(v) == Some(Iter(items))
  {
    hide Counting, Counted;
    match v {
      case Val(VT(VList(vs), WList(elem))) =>
        if GoesThrough(v, items) {
          assert items == Itemized(vs, elem);
        }
      case Val(VT(VRecord(vs), WRecord(_))) =>
        if |vs| >= 3 {
          CountsOver(vs[0], vs[1], vs[2], items);
        }
      case _ =>
    }
  }

  lemma {:induction false} CountsOver(from: Value, end: Value, inclusive: Value, items: seq<ValueAndType>)
    ensures Counted(from, end, inclusive, items)
            <==> from.VNum? && end.VNum? && inclusive.VBool? && from.kind == end.kind && !IsFloat(from.kind)
                 && items == Counting(from.kind, from.n.Floor, if inclusive.b then end.n.Floor + 1 else end.n.Floor)
  {
    hide Counting;
    if from.VNum? && end.VNum? && inclusive.VBool? && from.kind == end.kind {
      RangesAre(from.kind, 0);
      var to := if inclusive.b then end.n.Floor + 1 else end.n.Floor;
      Counts(from.kind, from.n.Floor, to);
      if Counted(from, end, inclusive, items) {
        assert items == Counting(from.kind, from.n.Floor, to);
      }
    }
  }

  /** The body is evaluated once for each of the items, each time with the item in the variable and from where the round
      before has ended. */
  ghost predicate InTurn<H(!new)>(w: World<H>, x: VariableId, b: Expr, items: seq<ValueAndType>, vs: seq<StackValue>,
                                  envs: seq<Env>, hs: seq<H>) {
    hide *;
    && |vs| == |items| && |envs| == |hs| == |items| + 1
    && forall i :: 0 <= i < |items| ==> Round(w, x, b, items[i], vs[i], envs[i], hs[i], envs[i + 1], hs[i + 1])
  }

  ghost predicate Round<H>(w: World<H>, x: VariableId, b: Expr, item: ValueAndType, v: StackValue, env: Env, h: H, after: Env, h1: H) {
    Eval(w, b, env[x := Val(item)], h) == Done(Some(v), after, h1)
  }

  /** The values among these, in their order; units are left out. */
  function Kept(vs: seq<StackValue>): seq<Value> {
    if vs == [] then [] else Kept(vs[..|vs| - 1]) + if vs[|vs| - 1].Val? then [vs[|vs| - 1].vt.value] else []
  }

  lemma KeptFront(v: StackValue, vs: seq<StackValue>)
    ensures Kept([v] + vs) == (if v.Val? then [v.vt.value] else []) + Kept(vs)
  {
    if vs == [] {
      assert [v] + vs == [v] && [v][..0] == [];
    } else {
      KeptFront(v, vs[..|vs| - 1]);
      assert ([v] + vs)[..|vs|] == [v] + vs[..|vs| - 1];
    }
  }

  /** The values so far, when a round is over. */
  lemma KeptSoFar(acc: seq<ValueAndType>, vs: seq<StackValue>)
    requires vs != []
    ensures ValuesOf(if vs[0].Val? then acc + [vs[0].vt] else acc) + Kept(vs[1..]) == ValuesOf(acc) + Kept(vs)
  {
    hide Kept, ValuesOf;
    KeptFront(vs[0], vs[1..]);
    assert [vs[0]] + vs[1..] == vs;
    if vs[0].Val? {
      ValuesAppend(acc, vs[0].vt);
    }
  }

  lemma {:induction false} CollectsInTurn<H(!new)>(w: World<H>, x: VariableId, b: Expr, items: seq<ValueAndType>,
                                                   vs: seq<StackValue>, envs: seq<Env>, hs: seq<H>, acc: seq<ValueAndType>,
                                                   elem: WitType)
    requires hide Eval, Collect, Round; InTurn(w, x, b, items, vs, envs, hs)
    ensures Collect(w, x, b, items, acc, elem, envs[0], hs[0])
            == Done(Some(Val(VT(VList(ValuesOf(acc) + Kept(vs)), WList(elem)))), envs[|items|], hs[|items|])
    decreases |items|
  {
    hide Eval, Collect, ValuesOf, Kept;
    CollectUnfold(w, x, b, items, acc, elem, envs[0], hs[0]);
    if items == [] {
      NoneKept(vs);
      assert ValuesOf(acc) + [] == ValuesOf(acc);
    } else {
      assert Round(w, x, b, items[0], vs[0], envs[0], hs[0], envs[1], hs[1]);
      CollectsInTurn(w, x, b, items[1..], vs[1..], envs[1..], hs[1..], if vs[0].Val? then acc + [vs[0].vt] else acc, elem);
      KeptSoFar(acc, vs);
    }
  }

  lemma NoneKept(vs: seq<StackValue>)
    requires vs == []
    ensures Kept(vs) == []
  {
  }

  /** A comprehension has the values of its body, one for each item, in their order. */
  lemma ComprehensionMeans<H(!new)>(w: World<H>, e: Expr, items: seq<ValueAndType>, vs: seq<StackValue>, envs: seq<Env>,
                                    hs: seq<H>, elem: WitType, env: Env, h: H)
    requires hide Eval, GoesThrough, InTurn; e.kind.Comprehension? && WitOf(e.ty) == Some(WList(elem))
    requires var o := Eval(w, e.kind.iterable, env, h);
             && Gives(o) && GoesThrough(o.v.value, items) && InTurn(w, e.kind.iterated, e.kind.body, items, vs, envs, hs)
             && |envs| == |hs| == |items| + 1 && envs[0] == o.env && hs[0] == o.h
    ensures Eval(w, e, env, h) == Done(Some(Val(VT(VList(Kept(vs)), WList(elem)))), envs[|items|], hs[|items|])
  {
    hide Eval, GoesThrough, InTurn, Kept, Collect, WitOf, Iterated;
    EvalComprehension(w, e, env, h);
    IteratesOver(Eval(w, e.kind.iterable, env, h).v.value, items);
    CollectsInTurn(w, e.kind.iterated, e.kind.body, items, vs, envs, hs, [], elem);
    assert ValuesOf([]) + Kept(vs) == Kept(vs);
  }

  /** Some rounds, and one that does not end with a value. */
  ghost predicate StopsAfter<H(!new)>(w: World<H>, x: VariableId, b: Expr, items: seq<ValueAndType>, n: nat,
                                      vs: seq<StackValue>, envs: seq<Env>, hs: seq<H>, last: H) {
    hide Eval, InTurn;
    && n < |items| && |envs| == |hs| == n + 1 && InTurn(w, x, b, items[..n], vs, envs, hs)
    && var o := Eval(w, b, envs[n][x := Val(items[n])], hs[n]); !Gives(o) && o.h == last
  }

  lemma {:induction false} CollectsUntil<H(!new)>(w: World<H>, x: VariableId, b: Expr, items: seq<ValueAndType>, n: nat,
                                                  vs: seq<StackValue>, envs: seq<Env>, hs: seq<H>, last: H,
                                                  acc: seq<ValueAndType>, elem: WitType)
    requires hide Eval, Collect, InTurn; StopsAfter(w, x, b, items, n, vs, envs, hs, last)
    ensures Collect(w, x, b, items, acc, elem, envs[0], hs[0]) == Fault(last)
    decreases n
  {
    hide Eval, Collect;
    CollectUnfold(w, x, b, items, acc, elem, envs[0], hs[0]);
    if n > 0 {
      assert Round(w, x, b, items[..n][0], vs[0], envs[0], hs[0], envs[1], hs[1]);
      assert items[1..][..n - 1] == items[..n][1..];
      CollectsUntil(w, x, b, items[1..], n - 1, vs[1..], envs[1..], hs[1..], last, if vs[0].Val? then acc + [vs[0].vt] else acc, elem);
    }
  }

  /** The first round without a value is the last one, and the comprehension has none. */
  lemma ComprehensionStops<H(!new)>(w: World<H>, e: Expr, items: seq<ValueAndType>, n: nat, vs: seq<StackValue>, envs: seq<Env>,
                                    hs: seq<H>, last: H, env: Env, h: H)
    requires hide Eval, GoesThrough, InTurn; e.kind.Comprehension? && WitOf(e.ty).Some? && WitOf(e.ty).value.WList?
    requires StopsAfter(w, e.kind.iterated, e.kind.body, items, n, vs, envs, hs, last)
    requires var o := Eval(w, e.kind.iterable, env, h);
             Gives(o) && GoesThrough(o.v.value, items) && envs[0] == o.env && hs[0] == o.h
    ensures Eval(w, e, env, h) == Fault(last)
  {
    hide Eval, GoesThrough, InTurn, Collect, WitOf, Iterated, StopsAfter;
    EvalComprehension(w, e, env, h);
    IteratesOver(Eval(w, e.kind.iterable, env, h).v.value, items);
    CollectsUntil(w, e.kind.iterated, e.kind.body, items, n, vs, envs, hs, last, [], WitOf(e.ty).value.elem);
  }

  /** Every round has a value and changes nothing. */
  ghost predicate Unchanging<H(!new)>(w: World<H>, x: VariableId, b: Expr, items: seq<ValueAndType>, env: Env, h: H) {
    hide Eval;
    forall i :: 0 <= i < |items| ==>
      var inner := env[x := Val(items[i])]; var o := Eval(w, b, inner, h);
      o.Done? && o.v.Some? && o.v.value.Val? && o.env == inner && o.h == h
  }

  predicate HasValue<H>(o: Outcome<H>, v: Value) { o.Done? && o.v.Some? && o.v.value.Val? && o.v.value.vt.value == v }

  /** Then value i of the comprehension is the value of the body for item i. */
  lemma UnchangingComprehension<H(!new)>(w: World<H>, e: Expr, items: seq<ValueAndType>, elem: WitType, env: Env, h: H)
    requires hide Eval, GoesThrough, Unchanging; e.kind.Comprehension? && WitOf(e.ty) == Some(WList(elem))
    requires var o := Eval(w, e.kind.iterable, env, h);
             Gives(o) && GoesThrough(o.v.value, items) && Unchanging(w, e.kind.iterated, e.kind.body, items, o.env, o.h)
    ensures var z, o := Eval(w, e, env, h), Eval(w, e.kind.iterable, env, h);
            && Gives(z) && z.v.value.Val? && z.v.value.vt.typ == WList(elem) && z.v.value.vt.value.VList? && z.h == o.h
            && z.env == (if items == [] then o.env else o.env[e.kind.iterated := Val(items[|items| - 1])])
            && |z.v.value.vt.value.items| == |items|
            && forall i :: 0 <= i < |items| ==>
                 HasValue(Eval(w, e.kind.body, o.env[e.kind.iterated := Val(items[i])], o.h), z.v.value.vt.value.items[i])
  {
    hide Eval, WitOf, Kept, InTurn, GoesThrough;
    var o := Eval(w, e.kind.iterable, env, h);
    var x := e.kind.iterated;
    var vs := seq(|items|, i requires 0 <= i < |items| => Eval(w, e.kind.body, o.env[x := Val(items[i])], o.h).v.value);
    var envs := seq(|items| + 1, i requires 0 <= i <= |items| => if i == 0 then o.env else o.env[x := Val(items[i - 1])]);
    var hs := seq(|items| + 1, _ => o.h);
    forall i | 0 <= i < |items| ensures Round(w, x, e.kind.body, items[i], vs[i], envs[i], hs[i], envs[i + 1], hs[i + 1]) {
      assert envs[i][x := Val(items[i])] == envs[i + 1];
    }
    AllRounds(w, x, e.kind.body, items, vs, envs, hs);
    ComprehensionMeans(w, e, items, vs, envs, hs, elem, env, h);
    KeepsAll(vs, seq(|items|, i requires 0 <= i < |items| => vs[i].vt.value));
  }

  lemma AllRounds<H(!new)>(w: World<H>, x: VariableId, b: Expr, items: seq<ValueAndType>, vs: seq<StackValue>, envs: seq<Env>, hs: seq<H>)
    requires hide *; |vs| == |items| && |envs| == |hs| == |items| + 1
    requires forall i :: 0 <= i < |items| ==> Round(w, x, b, items[i], vs[i], envs[i], hs[i], envs[i + 1], hs[i + 1])
    ensures InTurn(w, x, b, items, vs, envs, hs)
  {
    hide Round;
  }

  lemma {:induction false} VariableMeans<H>(w: World<H>, e: Expr, x: VariableId, v: StackValue, env: Env, h: H)
    requires hide *; e.kind.Atom? && e.kind.leaf == Identifier(x) && v.Val?
    ensures var inner := env[x := v]; Eval(w, e, inner, h) == Done(Some(v), inner, h)
  {
    hide Eval, WitOf, Weight;
    EvalLeaf(w, e, env[x := v], h);
  }

  lemma {:induction false} KeepsAll(vs: seq<StackValue>, list: seq<Value>)
    requires hide *; |vs| == |list| && forall i :: 0 <= i < |vs| ==> vs[i].Val? && vs[i].vt.value == list[i]
    ensures Kept(vs) == list
    decreases |vs|
  {
    if vs != [] {
      KeepsAll(vs[..|vs| - 1], list[..|list| - 1]);
      assert list == list[..|list| - 1] + [list[|list| - 1]];
    }
  }

  /** `for x in list { yield x; }` is the list. */
  lemma SameListAgain<H(!new)>(w: World<H>, e: Expr, list: seq<Value>, elem: WitType, env: Env, h: H)
    requires hide Eval; e.kind.Comprehension? && WitOf(e.ty) == Some(WList(elem))
    requires e.kind.body.kind.Atom? && e.kind.body.kind.leaf == Identifier(e.kind.iterated)
    requires var o := Eval(w, e.kind.iterable, env, h); Gives(o) && o.v.value == Val(VT(VList(list), WList(elem)))
    ensures var z := Eval(w, e, env, h);
            z.Done? && z.v == Some(Val(VT(VList(list), WList(elem)))) && z.h == Eval(w, e.kind.iterable, env, h).h
  {
    hide Eval, WitOf;
    var o := Eval(w, e.kind.iterable, env, h);
    var items := seq(|list|, i requires 0 <= i < |list| => VT(list[i], elem));
    forall i | 0 <= i < |items|
      ensures var inner := o.env[e.kind.iterated := Val(items[i])];
              Eval(w, e.kind.body, inner, o.h) == Done(Some(Val(items[i])), inner, o.h)
    {
      VariableMeans(w, e.kind.body, e.kind.iterated, Val(items[i]), o.env, o.h);
    }
    UnchangingComprehension(w, e, items, elem, env, h);
    var again := Eval(w, e, env, h).v.value.vt.value.items;
    forall i | 0 <= i < |list| ensures again[i] == list[i] {
      assert HasValue(Eval(w, e.kind.body, o.env[e.kind.iterated := Val(items[i])], o.h), again[i]);
    }
    assert again == list;
  }

  /** What the body makes of the value so far and an item, whatever it changes besides. */
  ghost predicate FoldRound<H>(w: World<H>, rx: VariableId, x: VariableId, b: Expr, item: ValueAndType, env: Env, h: H,
                               next: StackValue, after: Env, h1: H) {
    hide Eval;
    var o := Eval(w, b, env[x := Val(item)], h);
    Gives(o) && o.v.value == next && o.env[rx := next] == after && o.h == h1
  }

  /** The body is evaluated once for each of the items; its value is the value so far of the next round. */
  ghost predicate FoldsInTurn<H(!new)>(w: World<H>, rx: VariableId, x: VariableId, b: Expr, items: seq<ValueAndType>,
                                       accs: seq<StackValue>, envs: seq<Env>, hs: seq<H>) {
    hide *;
    && |accs| == |envs| == |hs| == |items| + 1 && rx in envs[0] && envs[0][rx] == accs[0]
    && forall i :: 0 <= i < |items| ==> FoldRound(w, rx, x, b, items[i], envs[i], hs[i], accs[i + 1], envs[i + 1], hs[i + 1])
  }

  lemma {:induction false} FoldsOverItems<H(!new)>(w: World<H>, rx: VariableId, x: VariableId, b: Expr, items: seq<ValueAndType>,
                                                   accs: seq<StackValue>, envs: seq<Env>, hs: seq<H>)
    requires hide Fold, Eval; FoldsInTurn(w, rx, x, b, items, accs, envs, hs) && Plainish(accs[|items|])
    ensures Fold(w, rx, x, b, items, envs[0], hs[0]) == Done(Some(accs[|items|]), envs[|items|], hs[|items|])
    decreases |items|
  {
    hide Fold, Eval;
    FoldUnfold(w, rx, x, b, items, envs[0], hs[0]);
    if items != [] {
      assert FoldRound(w, rx, x, b, items[0], envs[0], hs[0], accs[1], envs[1], hs[1]);
      FoldsOverItems(w, rx, x, b, items[1..], accs[1..], envs[1..], hs[1..]);
    }
  }

  /** A reduction has the value of its body after the last item. */
  lemma ReductionMeans<H(!new)>(w: World<H>, e: Expr, items: seq<ValueAndType>, accs: seq<StackValue>, envs: seq<Env>,
                                hs: seq<H>, env: Env, h: H)
    requires hide Eval, GoesThrough, FoldsInTurn; e.kind.Reduce? && |accs| == |envs| == |hs| == |items| + 1
    requires FoldsInTurn(w, e.kind.reduced, e.kind.iterated, e.kind.body, items, accs, envs, hs) && Plainish(accs[|items|])
    requires var o := Eval(w, e.kind.iterable, env, h);
             && Gives(o) && GoesThrough(o.v.value, items)
             && var u := Eval(w, e.kind.init, o.env, o.h);
                Gives(u) && accs[0] == u.v.value && envs[0] == u.env[e.kind.reduced := u.v.value] && hs[0] == u.h
    ensures Eval(w, e, env, h) == Done(Some(accs[|items|]), envs[|items|], hs[|items|])
  {
    hide Eval, GoesThrough, FoldsInTurn, Fold, Iterated;
    EvalReduction(w, e, env, h);
    IteratesOver(Eval(w, e.kind.iterable, env, h).v.value, items);
    FoldsOverItems(w, e.kind.reduced, e.kind.iterated, e.kind.body, items, accs, envs, hs);
  }

  function LeftFold(f: (ValueAndType, ValueAndType) -> ValueAndType, first: ValueAndType, items: seq<ValueAndType>): ValueAndType {
    if items == [] then first else f(LeftFold(f, first, items[..|items| - 1]), items[|items| - 1])
  }

  /** The body is this function of the value so far and the item, and changes nothing. */
  ghost predicate Applies<H(!new)>(w: World<H>, rx: VariableId, x: VariableId, b: Expr, items: seq<ValueAndType>,
                                   f: (ValueAndType, ValueAndType) -> ValueAndType, env: Env, h: H) {
    hide *;
    forall acc, i :: 0 <= i < |items| ==>
      var inner := env[rx := Val(acc)][x := Val(items[i])];
      Eval(w, b, inner, h) == Done(Some(Val(f(acc, items[i]))), inner, h)
  }

  /** Then the reduction is the fold of the items from the left. */
  lemma ReductionFolds<H(!new)>(w: World<H>, e: Expr, items: seq<ValueAndType>, first: ValueAndType,
                                f: (ValueAndType, ValueAndType) -> ValueAndType, env: Env, h: H)
    requires hide Eval, GoesThrough, Applies; e.kind.Reduce? && e.kind.reduced != e.kind.iterated
    requires var o := Eval(w, e.kind.iterable, env, h);
             && Gives(o) && GoesThrough(o.v.value, items)
             && var u := Eval(w, e.kind.init, o.env, o.h);
                Gives(u) && u.v.value == Val(first)
                && Applies(w, e.kind.reduced, e.kind.iterated, e.kind.body, items, f, u.env, u.h)
    ensures var z, o := Eval(w, e, env, h), Eval(w, e.kind.iterable, env, h);
            z.Done? && z.v == Some(Val(LeftFold(f, first, items))) && z.h == Eval(w, e.kind.init, o.env, o.h).h
  {
    hide Eval, GoesThrough;
    var o := Eval(w, e.kind.iterable, env, h);
    var u := Eval(w, e.kind.init, o.env, o.h);
    var rx, x, n := e.kind.reduced, e.kind.iterated, |items|;
    var accs := seq(n + 1, i requires 0 <= i <= n => Val(LeftFold(f, first, items[..i])));
    var envs := seq(n + 1, i requires 0 <= i <= n => if i == 0 then u.env[rx := accs[0]] else u.env[x := Val(items[i - 1])][rx := accs[i]]);
    var hs := seq(n + 1, _ => u.h);
    forall i | 0 <= i < n ensures FoldRound(w, rx, x, e.kind.body, items[i], envs[i], hs[i], accs[i + 1], envs[i + 1], hs[i + 1]) {
      var inner := u.env[rx := accs[i]][x := Val(items[i])];
      assert envs[i][x := Val(items[i])] == inner;
      assert inner[rx := accs[i + 1]] == envs[i + 1];
      assert items[..i + 1][..i] == items[..i];
    }
    AllFoldRounds(w, rx, x, e.kind.body, items, accs, envs, hs);
    assert items[..n] == items;
    ReductionMeans(w, e, items, accs, envs, hs, env, h);
  }

  lemma AllFoldRounds<H(!new)>(w: World<H>, rx: VariableId, x: VariableId, b: Expr, items: seq<ValueAndType>,
                               accs: seq<StackValue>, envs: seq<Env>, hs: seq<H>)
    requires hide *; |accs| == |envs| == |hs| == |items| + 1 && rx in envs[0] && envs[0][rx] == accs[0]
    requires forall i :: 0 <= i < |items| ==> FoldRound(w, rx, x, b, items[i], envs[i], hs[i], accs[i + 1], envs[i + 1], hs[i + 1])
    ensures FoldsInTurn(w, rx, x, b, items, accs, envs, hs)
  {
    hide FoldRound;
  }
}
