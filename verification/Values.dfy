/** What the value instructions compute. Every function gets its arguments in the order in which they are popped and
    returns None where the interpreter reports an error. */
module Values {
  import opened Syntax

  /** What can lie on the interpreter stack. */
  datatype StackValue =
    | Unit
    | Val(vt: ValueAndType)
    | Iter(items: seq<ValueAndType>)
    | Sink(items: seq<ValueAndType>, elem: WitType)

  predicate IsBool(v: StackValue, b: bool) { v.Val? && v.vt.value == VBool(b) }

  function MkVal(b: bool): StackValue { Val(BoolVT(b)) }

  function AllVals(vs: seq<StackValue>): Option<seq<ValueAndType>> {
    if vs == [] then Some([]) else
    var rest := AllVals(vs[1..]);
    if vs[0].Val? && rest.Some? then Some([vs[0].vt] + rest.value) else None
  }

  function ValuesOf(vts: seq<ValueAndType>): seq<Value> {
    seq(|vts|, i requires 0 <= i < |vts| => vts[i].value)
  }

  lemma ValuesAppend(acc: seq<ValueAndType>, vt: ValueAndType)
    ensures ValuesOf(acc + [vt]) == ValuesOf(acc) + [vt.value]
  {
    if acc != [] {
      assert (acc + [vt])[1..] == acc[1..] + [vt];
      ValuesAppend(acc[1..], vt);
    }
  }

  function TypesOf(vts: seq<ValueAndType>): seq<WitType> {
    seq(|vts|, i requires 0 <= i < |vts| => vts[i].typ)
  }

  // ---------- literals ----------

  datatype LiteralValue = LNum(n: real) | LStr(s: string) | LBool(b: bool)

  function CaseName(cases: seq<Field<Option<WitType>>>, i: nat): Option<string> {
    if i < |cases| then Some(cases[i].name) else None
  }

  /** Enums and variant cases without payload count as strings. */
  function GetLiteral(vt: ValueAndType): Option<LiteralValue> {
    hide *;
    match vt.value
    case VStr(s) => Some(LStr(s))
    case VChar(c) => Some(LStr([c]))
    case VBool(b) => Some(LBool(b))
    case VNum(_, n) => Some(LNum(n))
    case VEnum(i) => if vt.typ.WEnum? && i < |vt.typ.cases| then Some(LStr(vt.typ.cases[i])) else None
    case VVariant(i, None) =>
      if vt.typ.WVariant? && i < |vt.typ.variants| then Some(LStr(vt.typ.variants[i].name)) else None
    case _ => None
  }

  function LexLess(a: string, b: string): bool {
    if b == [] then false
    else if a == [] then true
    else a[0] < b[0] || (a[0] == b[0] && LexLess(a[1..], b[1..]))
  }

  function Rank(l: LiteralValue): nat { match l case LNum(_) => 0 case LStr(_) => 1 case LBool(_) => 2 }

  /** Numbers come before strings and strings before booleans. */
  function LiteralLess(a: LiteralValue, b: LiteralValue): bool {
    match (a, b)
    case (LNum(x), LNum(y)) => x < y
    case (LStr(x), LStr(y)) => LexLess(x, y)
    case (LBool(x), LBool(y)) => !x && y
    case _ => Rank(a) < Rank(b)
  }

  function CompareLiterals(op: CmpOp, a: LiteralValue, b: LiteralValue): bool {
    match op
    case EqualTo => a == b
    case GreaterThan => LiteralLess(b, a)
    case LessThan => LiteralLess(a, b)
    case GreaterThanOrEqualTo => a == b || LiteralLess(b, a)
    case LessThanOrEqualTo => a == b || LiteralLess(a, b)
  }

  function CompareTyped(op: CmpOp, a: ValueAndType, b: ValueAndType): Option<bool>
    decreases a.value
  {
    hide *;
    var la, lb := GetLiteral(a), GetLiteral(b);
    if la.Some? && lb.Some? then Some(CompareLiterals(op, la.value, lb.value))
    else
      match (a, b)
      case (VT(VVariant(i, p), WVariant(cs)), VT(VVariant(j, q), WVariant(ds))) =>
        if i != j then Some(false)
        else if p.None? || q.None? then Some(true)
        else if i >= |cs| || j >= |ds| then None
        else if cs[i].of.None? || ds[j].of.None? then Some(true)
        else CompareTyped(op, VT(p.value, cs[i].of.value), VT(q.value, ds[j].of.value))
      case (VT(VEnum(i), _), VT(VEnum(j), _)) => Some(i == j)
      case (VT(VFlags(x), _), VT(VFlags(y), _)) => Some(x == y)
      case _ => None
  }

  function CompareValues(op: CmpOp, l: StackValue, r: StackValue): Option<StackValue> {
    hide *;
    if l.Unit? && r.Unit? then Some(MkVal(true))
    else if l.Val? && r.Val? then
      var b := CompareTyped(op, l.vt, r.vt);
      if b.Some? then Some(MkVal(b.value)) else None
    else None
  }

  // ---------- arithmetic ----------

  /** Unsigned numbers are computed with as u64, signed ones as i64, and floats exactly. */
  datatype Coerced = PosInt(i: int) | NegInt(i: int) | Float(r: real)

  function Coerce(v: StackValue): Option<Coerced> {
    match v
    case Val(VT(VNum(k, n), _)) => Some(if IsFloat(k) then Float(n) else if IsSigned(k) then NegInt(n.Floor) else PosInt(n.Floor))
    case _ => None
  }

  function AsReal(c: Coerced): real { if c.Float? then c.r else c.i as real }

  /** Reinterpretation of a u64 as an i64. */
  function AsSigned(i: int): int { if i > MaxOf(S64) then i - 0x1_0000_0000_0000_0000 else i }

  function TruncDiv(a: int, b: int): int
    requires b != 0
  {
    var q := (if a < 0 then -a else a) / (if b < 0 then -b else b);
    if (a < 0) == (b < 0) then q else -q
  }

  function IntOp(op: MathOp, a: int, b: int): Option<int> {
    match op
    case Plus => Some(a + b)
    case Minus => Some(a - b)
    case Multiply => Some(a * b)
    case Divide => if b == 0 then None else Some(TruncDiv(a, b))
  }

  function RealOp(op: MathOp, a: real, b: real): Option<real> {
    match op
    case Plus => Some(a + b)
    case Minus => Some(a - b)
    case Multiply => Some(a * b)
    case Divide => if b == 0.0 then None else Some(a / b)
  }

  function Compute(op: MathOp, a: Coerced, b: Coerced): Option<Coerced> {
    if a.Float? || b.Float? then
      var r := RealOp(op, AsReal(a), AsReal(b));
      if r.Some? then Some(Float(r.value)) else None
    else if a.PosInt? && b.PosInt? then
      var r := IntOp(op, a.i, b.i);
      if r.Some? && MinOf(U64) <= r.value <= MaxOf(U64) then Some(PosInt(r.value)) else None
    else
      var r := IntOp(op, if a.PosInt? then AsSigned(a.i) else a.i, if b.PosInt? then AsSigned(b.i) else b.i);
      if r.Some? && MinOf(S64) <= r.value <= MaxOf(S64) then Some(NegInt(r.value)) else None
  }

  function CastTo(c: Coerced, t: WitType): Option<StackValue> {
    hide *;
    if !t.WNum? then None
    else if c.Float? then
      if IsFloat(t.num) then Some(Val(VT(VNum(t.num, c.r), t)))
      else if t.num != U64 && t.num != S64 then None
      else if c.r.Floor as real == c.r && MinOf(t.num) <= c.r.Floor <= MaxOf(t.num) then Some(Val(VT(VNum(t.num, c.r), t)))
      else None
    else if IsFloat(t.num) || MinOf(t.num) <= c.i <= MaxOf(t.num) then Some(Val(VT(VNum(t.num, c.i as real), t)))
    else None
  }

  function MathValues(op: MathOp, t: WitType, l: StackValue, r: StackValue): Option<StackValue> {
    hide *;
    var a, b := Coerce(l), Coerce(r);
    if a.None? || b.None? then None else
    var c := Compute(op, a.value, b.value);
    if c.None? then None else CastTo(c.value, t)
  }

  // ---------- records, lists, tags ----------

  function FieldIndex(fields: seq<Field<WitType>>, name: string): (i: Option<nat>)
    ensures hide *; i.Some? ==> i.value < |fields| && fields[i.value].name == name
    ensures i.None? ==> forall j :: 0 <= j < |fields| ==> fields[j].name != name
  {
    if fields == [] then None
    else if fields[0].name == name then Some(0)
    else var i := FieldIndex(fields[1..], name); if i.Some? then Some(i.value + 1) else None
  }

  function CaseIndex(cases: seq<Field<Option<WitType>>>, name: string): (i: Option<nat>)
    ensures hide *; i.Some? ==> i.value < |cases| && cases[i.value].name == name
    ensures i.None? ==> forall j :: 0 <= j < |cases| ==> cases[j].name != name
  {
    if cases == [] then None
    else if cases[0].name == name then Some(0)
    else var i := CaseIndex(cases[1..], name); if i.Some? then Some(i.value + 1) else None
  }

  function NameIndex(names: seq<string>, name: string): (i: Option<nat>)
    ensures i.Some? ==> i.value < |names| && names[i.value] == name
    ensures i.None? ==> name !in names
  {
    if names == [] then None
    else if names[0] == name then Some(0)
    else var i := NameIndex(names[1..], name); if i.Some? then Some(i.value + 1) else None
  }

  /** A fresh record has an empty tuple in every field. */
  function EmptyRecord(t: WitType): Option<StackValue> {
    if t.WRecord? then Some(Val(VT(VRecord(seq(|t.fields|, _ => VTuple([]))), t))) else None
  }

  function UpdateField(name: string, record: StackValue, value: StackValue): Option<StackValue> {
    hide *;
    match record
    case Val(VT(VRecord(items), WRecord(fields))) =>
      var i := FieldIndex(fields, name);
      if i.None? || !value.Val? || i.value >= |items| then None
      else Some(Val(VT(VRecord(items[i.value := value.vt.value]), WRecord(fields))))
    case _ => None
  }

  function SelectFieldOf(name: string, record: StackValue): Option<StackValue> {
    hide *;
    match record
    case Val(VT(VRecord(items), WRecord(fields))) =>
      var i := FieldIndex(fields, name);
      if i.None? || i.value >= |items| then None else Some(Val(VT(items[i.value], fields[i.value].of)))
    case _ => None
  }

  function SelectItem(list: StackValue, index: StackValue): Option<StackValue> {
    hide *;
    var c := Coerce(index);
    match list
    case Val(VT(VList(items), WList(elem))) =>
      if c.None? || c.value.Float? || !(0 <= c.value.i < |items|) then None
      else Some(Val(VT(items[c.value.i], elem)))
    case Val(VT(VTuple(items), WTuple(types))) =>
      if c.None? || !c.value.PosInt? || !(0 <= c.value.i < |items|) || c.value.i >= |types| then None
      else Some(Val(VT(items[c.value.i], types[c.value.i])))
    case _ => None
  }

  function MakeList(t: WitType, vs: seq<StackValue>): Option<StackValue> {
    hide *;
    var vts := AllVals(vs);
    if t.WList? && vts.Some? then Some(Val(VT(VList(ValuesOf(vts.value)), t))) else None
  }

  function MakeTuple(t: WitType, vs: seq<StackValue>): Option<StackValue> {
    hide *;
    var vts := AllVals(vs);
    if t.WTuple? && vts.Some? then Some(Val(VT(VTuple(ValuesOf(vts.value)), WTuple(TypesOf(vts.value))))) else None
  }

  function MakeSomeOf(t: WitType, v: StackValue): Option<StackValue> {
    if v.Val? && t.WOption? then Some(Val(VT(VOption(Some(v.vt.value)), t))) else None
  }

  /** The option type itself, or `string` without one, becomes the type of the missing payload. */
  function MakeNoneOf(t: Option<WitType>): Option<StackValue> {
    if t.None? then Some(Val(VT(VOption(None), WOption(WStr))))
    else if t.value.WOption? then Some(Val(VT(VOption(None), WOption(t.value))))
    else None
  }

  function MakeOkOf(t: WitType, v: StackValue): Option<StackValue> {
    if v.Val? && t.WResult? then Some(Val(VT(VOk(Some(v.vt.value)), t))) else None
  }

  function MakeErrOf(t: WitType, v: StackValue): Option<StackValue> {
    if v.Val? && t.WResult? then Some(Val(VT(VErr(Some(v.vt.value)), t))) else None
  }

  /** The payload of an option, a result or a variant, with its type. */
  function UnwrapValue(v: StackValue): Option<StackValue> {
    hide *;
    match v
    case Val(VT(VOption(Some(x)), WOption(t))) => Some(Val(VT(x, t)))
    case Val(VT(VOk(Some(x)), WResult(ok, _))) => if ok.Some? then Some(Val(VT(x, ok.value))) else None
    case Val(VT(VErr(Some(x)), WResult(_, err))) => if err.Some? then Some(Val(VT(x, err.value))) else None
    case Val(VT(VVariant(i, Some(x)), WVariant(cases))) =>
      if i < |cases| && cases[i].of.Some? then Some(Val(VT(x, cases[i].of.value))) else None
    case _ => None
  }

  function TagName(vt: ValueAndType): Option<string> {
    hide *;
    match vt
    case VT(VVariant(i, _), WVariant(cases)) => CaseName(cases, i)
    case VT(VOption(x), _) => Some(if x.Some? then "some" else "none")
    case VT(VOk(_), _) => Some("ok")
    case VT(VErr(_), _) => Some("err")
    case VT(VEnum(i), WEnum(cases)) => if i < |cases| then Some(cases[i]) else None
    case _ => Some("untagged")
  }

  function TagOf(v: StackValue): Option<StackValue> {
    hide *;
    if !v.Val? then None else
    var t := TagName(v.vt);
    if t.Some? then Some(Val(StrVT(t.value))) else None
  }

  function CasePayload(t: WitType, name: string): Option<WitType> {
    if !t.WVariant? then None else
    var i := CaseIndex(t.variants, name);
    if i.Some? then t.variants[i.value].of else None
  }

  function MakeVariant(name: string, t: WitType, payload: Option<StackValue>): Option<StackValue> {
    hide *;
    if !t.WVariant? then None else
    var i := CaseIndex(t.variants, name);
    if i.None? || (payload.Some? && !payload.value.Val?) then None
    else Some(Val(VT(VVariant(i.value, if payload.Some? then Some(payload.value.vt.value) else None), t)))
  }

  function MakeEnum(name: string, t: WitType): Option<StackValue> {
    hide *;
    if !t.WEnum? then None else
    var i := NameIndex(t.cases, name);
    if i.Some? then Some(Val(VT(VEnum(i.value), t))) else None
  }

  function Negated(v: StackValue): Option<StackValue> {
    match v case Val(VT(VBool(b), _)) => Some(MkVal(!b)) case _ => None
  }

  function LengthOf(v: StackValue): Option<StackValue> {
    match v
    case Val(VT(VList(items), _)) => Some(Val(VT(VNum(U64, |items| as real), WNum(U64))))
    case Iter(items) => Some(Val(VT(VNum(U64, |items| as real), WNum(U64))))
    case _ => None
  }

  function ConcatText(text: ValueAndType -> string, vts: seq<ValueAndType>): string {
    hide *;
    if vts == [] then "" else
    (match vts[0].value case VStr(s) => s case VChar(c) => [c] case _ => text(vts[0])) + ConcatText(text, vts[1..])
  }

  function Concatenated(text: ValueAndType -> string, vs: seq<StackValue>): Option<StackValue> {
    hide *;
    var vts := AllVals(vs);
    if vts.Some? then Some(Val(StrVT(ConcatText(text, vts.value)))) else None
  }

  // ---------- iteration ----------

  function Counting(k: NumberKind, from: int, to: int): seq<ValueAndType>
    decreases to - from
  {
    if from >= to then [] else [VT(VNum(k, from as real), WNum(k))] + Counting(k, from + 1, to)
  }

  function Itemized(items: seq<Value>, elem: WitType): seq<ValueAndType> {
    seq(|items|, i requires 0 <= i < |items| => VT(items[i], elem))
  }

  /** Lists iterate over their items; records are taken for ranges with `from`, `to` and `inclusive`. */
  function Iterated(v: StackValue): Option<StackValue> {
    hide *;
    match v
    case Val(VT(VList(items), WList(elem))) => Some(Iter(Itemized(items, elem)))
    case Val(VT(VRecord(items), WRecord(_))) =>
      if |items| < 3 then None
      else
        (match (items[0], items[1], items[2])
         case (VNum(k, from), VNum(l, to), VBool(inclusive)) =>
           if k != l || IsFloat(k) then None
           else Some(Iter(Counting(k, from.Floor, if inclusive then to.Floor + 1 else to.Floor)))
         case _ => None)
    case _ => None
  }

  function SinkFor(t: WitType): Option<StackValue> {
    if t.WList? then Some(Sink([], t.elem)) else None
  }

  // ---------- names ----------

  function Digits(n: nat): string {
    if n < 10 then ["0123456789"[n]] else Digits(n / 10) + ["0123456789"[n % 10]]
  }

  /** The variable under which the instance created for a variable is looked up. */
  function AsInstanceVariable(v: VariableId): VariableId {
    Global("__instance_" +
      match v
      case Global(name) => name
      case Local(name, id) => if id.Some? then name + "-" + Digits(id.value) else name
      case MatchIdentifier(name, arm) => name + "-" + Digits(arm)
      case ListComprehension(name) => name
      case ListReduce(name) => name)
  }

  function AfterLastSlash(s: string): string {
    if s == [] then [] else if '/' in s[1..] then AfterLastSlash(s[1..]) else if s[0] == '/' then s[1..] else s
  }
}
