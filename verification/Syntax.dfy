/** Types and values, expressions, patterns and byte code instructions. */
module Syntax {

  // ===== The two failure-carrying datatypes every other module uses.

  datatype Option<+T> = None | Some(value: T)

  datatype Result<+T, +E> = Ok(value: T) | Err(error: E)

  // ===== Types and values: the inferred types of the compiler (with their origins), the WIT types the byte code
  // carries, and the values the interpreter computes with.

  /** A name with something attached to it: a record field, a variant case. */
  datatype Field<X> = Field(name: string, of: X)

  predicate NoRepeats(names: seq<string>) {
    forall i, j :: 0 <= i < j < |names| ==> names[i] != names[j]
  }

  datatype NumberKind = S8 | U8 | S16 | U16 | S32 | U32 | S64 | U64 | F32 | F64

  // ---------- inferred types ----------

  datatype DefaultType = DefaultString | DefaultF64 | DefaultS32

  /** Where a type came from; spans are opaque numbers. */
  datatype TypeOrigin =
    | OriginatedAt(span: int)
    | Default(default: DefaultType)
    | NoOrigin
    | Declared(span: int)
    | Multiple(origins: seq<TypeOrigin>)
  {
    predicate IsDefault() {
      match this
      case Default(_) => true
      case Multiple(origins) => exists o | o in origins :: o.IsDefault()
      case _ => false
    }
  }

  /** An instance type is only ever inspected for being a resource; the rest of it is an opaque key. */
  datatype InstanceType = ResourceInstance(id: int, mode: int, key: int) | WorkerInstance(key: int)

  datatype InferredType = InferredType(inner: TypeInternal, origin: TypeOrigin)

  datatype TypeInternal =
    | TBool
    | TNum(num: NumberKind)
    | TChr
    | TStr
    | TList(elem: InferredType)
    | TTuple(items: seq<InferredType>)
    | TRecord(fields: seq<Field<InferredType>>)
    | TFlags(flags: seq<string>)
    | TEnum(cases: seq<string>)
    | TOption(some: InferredType)
    | TResult(ok: Option<InferredType>, error: Option<InferredType>)
    | TVariant(variants: seq<Field<Option<InferredType>>>)
    | TResource(id: int, mode: int, owner: Option<string>, name: Option<string>)
    | TRange(from: InferredType, to: Option<InferredType>)
    | TInstance(instance: InstanceType)
    | TAllOf(types: seq<InferredType>)
    | TUnknown
    | TSequence(types: seq<InferredType>)

  /** A type without origin. */
  function Plain(t: TypeInternal): InferredType {
    InferredType(t, NoOrigin)
  }

  const UNKNOWN: InferredType := InferredType(TUnknown, NoOrigin)

  /** No result at all, as opposed to an empty tuple. */
  predicate IsUnit(t: InferredType) {
    t.inner.TSequence? && t.inner.types == []
  }

  // ---------- WIT types ----------

  datatype WitType =
    | WBool
    | WNum(num: NumberKind)
    | WChr
    | WStr
    | WList(elem: WitType)
    | WTuple(items: seq<WitType>)
    | WRecord(fields: seq<Field<WitType>>)
    | WFlags(names: seq<string>)
    | WEnum(cases: seq<string>)
    | WOption(some: WitType)
    | WResult(ok: Option<WitType>, err: Option<WitType>)
    | WVariant(variants: seq<Field<Option<WitType>>>)
    | WHandle(id: int, owned: bool)

  /** Conversion to a WIT type; None when the type is ambiguous or unknown. */
  function WitOf(t: InferredType): Option<WitType>
    decreases t
  {
    hide *;
    match t.inner
    case TBool => Some(WBool)
    case TNum(k) => Some(WNum(k))
    case TChr => Some(WChr)
    case TStr => Some(WStr)
    case TList(e) => var w := WitOf(e); if w.None? then None else Some(WList(w.value))
    case TTuple(ts) => var ws := WitOfAll(ts); if ws.None? then None else Some(WTuple(ws.value))
    case TRecord(fs) => var ws := WitOfFields(fs); if ws.None? then None else Some(WRecord(ws.value))
    case TFlags(names) => Some(WFlags(names))
    case TEnum(cases) => Some(WEnum(cases))
    case TOption(s) => var w := WitOf(s); if w.None? then None else Some(WOption(w.value))
    case TResult(ok, error) =>
      // a side that cannot be converted is dropped, not an error
      Some(WResult(if ok.Some? then WitOf(ok.value) else None, if error.Some? then WitOf(error.value) else None))
    case TVariant(vs) => var ws := WitOfCases(vs); if ws.None? then None else Some(WVariant(ws.value))
    case TResource(id, mode, _, _) => Some(WHandle(id, mode == 0))
    case TRange(from, to) =>
      var f := WitOf(from);
      if f.None? then None
      else if to.None? then Some(WRecord([Field("from", f.value), Field("inclusive", WBool)]))
      else
        var u := WitOf(to.value);
        if u.None? then None
        else Some(WRecord([Field("from", f.value), Field("to", u.value), Field("inclusive", WBool)]))
    case TInstance(i) => Some(match i case ResourceInstance(id, mode, _) => WHandle(id, mode == 0) case WorkerInstance(_) => WStr)
    case TAllOf(_) => None
    case TUnknown => None
    case TSequence(ts) => if ts == [] then Some(WTuple([])) else if |ts| == 1 then WitOf(ts[0]) else None
  }

  function WitOfAll(ts: seq<InferredType>): Option<seq<WitType>>
    decreases ts
  {
    hide *;
    if ts == [] then Some([]) else
    var w, ws := WitOf(ts[0]), WitOfAll(ts[1..]);
    if w.None? || ws.None? then None else Some([w.value] + ws.value)
  }

  function WitOfFields(fs: seq<Field<InferredType>>): Option<seq<Field<WitType>>>
    decreases fs
  {
    hide *;
    if fs == [] then Some([]) else
    var w, ws := WitOf(fs[0].of), WitOfFields(fs[1..]);
    if w.None? || ws.None? then None else Some([Field(fs[0].name, w.value)] + ws.value)
  }

  function WitOfCases(fs: seq<Field<Option<InferredType>>>): Option<seq<Field<Option<WitType>>>>
    decreases fs
  {
    hide *;
    if fs == [] then Some([]) else
    var ws := WitOfCases(fs[1..]);
    if ws.None? then None
    else if fs[0].of.None? then Some([Field(fs[0].name, None)] + ws.value)
    else
      var w := WitOf(fs[0].of.value);
      if w.None? then None else Some([Field(fs[0].name, Some(w.value))] + ws.value)
  }

  // ---------- values ----------

  /** Numbers are exact; the kind says which machine type carries them. */
  datatype Value =
    | VBool(b: bool)
    | VNum(kind: NumberKind, n: real)
    | VChar(c: char)
    | VStr(s: string)
    | VList(items: seq<Value>)
    | VTuple(items: seq<Value>)
    | VRecord(items: seq<Value>)
    | VVariant(idx: nat, payload: Option<Value>)
    | VEnum(idx: nat)
    | VFlags(bits: seq<bool>)
    | VOption(inner: Option<Value>)
    | VOk(inner: Option<Value>)
    | VErr(inner: Option<Value>)
    | VHandle(uri: string, id: int, instance: string)

  datatype ValueAndType = VT(value: Value, typ: WitType)

  function BoolVT(b: bool): ValueAndType { VT(VBool(b), WBool) }

  function StrVT(s: string): ValueAndType { VT(VStr(s), WStr) }

  function MinOf(k: NumberKind): int {
    match k
    case S8 => -0x80
    case S16 => -0x8000
    case S32 => -0x8000_0000
    case S64 => -0x8000_0000_0000_0000
    case _ => 0
  }

  function MaxOf(k: NumberKind): int {
    match k
    case S8 => 0x7f
    case U8 => 0xff
    case S16 => 0x7fff
    case U16 => 0xffff
    case S32 => 0x7fff_ffff
    case U32 => 0xffff_ffff
    case S64 => 0x7fff_ffff_ffff_ffff
    case _ => 0xffff_ffff_ffff_ffff
  }

  predicate IsFloat(k: NumberKind) { k == F32 || k == F64 }

  predicate IsSigned(k: NumberKind) { k == S8 || k == S16 || k == S32 || k == S64 }

  /** The number as a value of the given kind, if it fits; fractions are cut off for the integer kinds. */
  function NumberAs(n: real, k: NumberKind): Option<ValueAndType> {
    if IsFloat(k) then Some(VT(VNum(k, n), WNum(k)))
    else
      var i := if n >= 0.0 then n.Floor else -((-n).Floor);
      if MinOf(k) <= i <= MaxOf(k) then Some(VT(VNum(k, i as real), WNum(k))) else None
  }

  // ---------- variables ----------

  datatype VariableId =
    | Global(name: string)
    | Local(name: string, id: Option<nat>)
    | MatchIdentifier(name: string, arm: nat)
    | ListComprehension(name: string)
    | ListReduce(name: string)

  // ===== Expressions, patterns and byte code instructions.

  // ---------- expressions ----------

  datatype CmpOp = EqualTo | GreaterThan | LessThan | GreaterThanOrEqualTo | LessThanOrEqualTo

  datatype MathOp = Plus | Minus | Divide | Multiply

  datatype BinaryOp = Compare(cmp: CmpOp) | Math(math: MathOp) | And | Or

  datatype UnaryOp = Not | Unwrap | Length | GetTag | SelectField(field: string) | MakeSome | MakeOk | MakeErr

  datatype ListOp = Sequence | Tuple | Concat

  datatype Leaf =
    | Literal(text: string)
    | Number(number: real)
    | Boolean(truth: bool)
    | Flags(flags: seq<string>)
    | Identifier(variable: VariableId)
    | Throw(message: string)
    | GenerateWorkerName(worker: Option<VariableId>)
    | MakeNone

  /** Type annotation and source span; no stage modelled here looks inside. */
  datatype Note = Note(annotation: Option<string>, span: int)

  const NO_NOTE: Note := Note(None, 0)

  datatype Expr = Expr(kind: Kind, ty: InferredType, note: Note)

  datatype Kind =
    | Atom(leaf: Leaf)
    | Unary(unary: UnaryOp, arg: Expr)
    | Binary(binary: BinaryOp, lhs: Expr, rhs: Expr)
    | Record(fields: seq<Field<Expr>>)
    | ListOf(listOp: ListOp, exprs: seq<Expr>)
    | Block(exprs: seq<Expr>)
    | Let(variable: VariableId, bound: Expr)
    | Cond(cond: Expr, lhs: Expr, rhs: Expr)
    | PatternMatch(scrutinee: Expr, arms: seq<MatchArm>)
    | SelectIndex(list: Expr, index: Expr)
    | Call(callType: CallType, args: seq<Expr>)
    | Comprehension(iterated: VariableId, iterable: Expr, body: Expr)
    | Reduce(reduced: VariableId, iterated: VariableId, iterable: Expr, init: Expr, body: Expr)
    | Range(from: Expr, to: Option<Expr>, inclusive: bool)
    | InvokeMethodLazy(receiver: Expr, method_: string, args: seq<Expr>)

  datatype MatchArm = MatchArm(pattern: ArmPattern, resolution: Expr)

  datatype ArmPattern =
    | WildCard
    | As(name: string, inner: ArmPattern)
    | Constructor(name: string, patterns: seq<ArmPattern>)
    | TupleConstructor(patterns: seq<ArmPattern>)
    | RecordConstructor(fieldPatterns: seq<Field<ArmPattern>>)
    | ListConstructor(patterns: seq<ArmPattern>)
    | LiteralPattern(literal: Expr)

  /** The receiver of a call. A static resource call has no variable of its own. */
  datatype InstanceVariable = WitWorker(worker: VariableId) | WitResource(resource: VariableId)

  const STATIC_WIT_RESOURCE: string := "___STATIC_WIT_RESOURCE"

  /** The function names and component keys are opaque; what the compiler checks is whether the receiver and
      the component have been resolved. */
  datatype CallType =
    | Function(name: string, receiver: Receiver, component: Option<int>)
    | VariantConstructor(variant: string)
    | EnumConstructor(enum_: string)
    | WorkerCreation(workerName: Option<Expr>, component: Option<int>)
    | ResourceCreation(resource: string, owner: Receiver, component: Option<int>)

  /** The instance a call goes to, if there is one yet; code only looks at the variable, the arena also keeps the name of
      the worker and of the resource. */
  datatype Receiver =
    | NoInstance
    | WorkerReceiver(worker: Option<VariableId>, workerName: Option<Expr>)
    | ResourceReceiver(resource: Option<VariableId>, workerName: Option<Expr>, resourceName: string)

  function WorkerNameOf(r: Receiver): Option<Expr> { if r.NoInstance? then None else r.workerName }

  function Mk(kind: Kind): Expr { Expr(kind, UNKNOWN, NO_NOTE) }

  function MkVar(v: VariableId): Expr { Mk(Atom(Identifier(v))) }

  function MkBool(b: bool): Expr { Expr(Atom(Boolean(b)), Plain(TBool), NO_NOTE) }

  function MkLit(s: string): Expr { Expr(Atom(Literal(s)), Plain(TStr), NO_NOTE) }

  function MkAnd(l: Expr, r: Expr): Expr { Expr(Binary(And, l, r), Plain(TBool), NO_NOTE) }

  function MkEq(l: Expr, r: Expr): Expr { Expr(Binary(Compare(EqualTo), l, r), Plain(TBool), NO_NOTE) }

  function MkUnwrap(e: Expr): Expr { Mk(Unary(Unwrap, e)) }

  function MkTag(e: Expr): Expr { Mk(Unary(GetTag, e)) }

  function MkThrow(s: string): Expr { Mk(Atom(Throw(s))) }

  /** A block has the type of its last expression. */
  function MkBlock(es: seq<Expr>): Expr {
    Expr(Block(es), if es == [] then UNKNOWN else es[|es| - 1].ty, NO_NOTE)
  }

  // ---------- byte code ----------

  datatype IR =
    | PushLit(lit: ValueAndType)
    | PushFlag(lit: ValueAndType)
    | AssignVar(variable: VariableId)
    | LoadVar(variable: VariableId)
    | CreateAndPushRecord(typ: WitType)
    | UpdateRecord(field: string)
    | PushList(typ: WitType, size: nat)
    | PushTuple(typ: WitType, size: nat)
    | PushSome(typ: WitType)
    | PushNone(optTyp: Option<WitType>)
    | PushOkResult(typ: WitType)
    | PushErrResult(typ: WitType)
    | SelectFieldIR(field: string)
    | SelectIndexV1
    | CompareIR(cmp: CmpOp)
    | MathIR(math: MathOp, typ: WitType)
    | IsEmpty
    | JumpIfFalse(target: nat)
    | Jump(target: nat)
    | Label(target: nat)
    | Deconstruct
    | CreateFunctionName(name: string)
    | InvokeFunction(component: int, receiver: InstanceVariable, size: nat, result: Option<WitType>)
    | PushVariant(case_: string, typ: WitType)
    | PushEnum(case_: string, typ: WitType)
    | ThrowIR(message: string)
    | GetTagIR
    | ConcatIR(size: nat)
    | Negate
    | ToIterator
    | CreateSink(typ: WitType)
    | AdvanceIterator
    | PushToSink
    | SinkToList
    | LengthIR
    | GenerateName(worker: Option<VariableId>)
}
