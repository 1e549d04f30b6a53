/** Inferred types up to their origins. */
module Inferred {
  import opened Syntax

  // ---------- equality that ignores origins ----------

  /** A type without origins; alternatives and sequences have no order. */
  datatype Shape =
    | SLeaf(leaf: TypeInternal)
    | SList(elem: Shape)
    | STuple(items: seq<Shape>)
    | SRecord(fields: seq<Field<Shape>>)
    | SOption(some: Shape)
    | SResult(ok: Option<Shape>, error: Option<Shape>)
    | SVariant(variants: seq<Field<Option<Shape>>>)
    | SRange(from: Shape, to: Option<Shape>)
    | SAllOf(types: multiset<Shape>)
    | SSequence(types: multiset<Shape>)

  function ShapeOf(t: InferredType): Shape
    decreases t
  {
    hide *;
    match t.inner
    case TList(e) => SList(ShapeOf(e))
    case TTuple(ts) => STuple(ShapesOf(ts))
    case TRecord(fs) => SRecord(FieldShapes(fs))
    case TOption(s) => SOption(ShapeOf(s))
    case TResult(ok, error) =>
      SResult(if ok.Some? then Some(ShapeOf(ok.value)) else None, if error.Some? then Some(ShapeOf(error.value)) else None)
    case TVariant(vs) => SVariant(CaseShapes(vs))
    case TRange(from, to) => SRange(ShapeOf(from), if to.Some? then Some(ShapeOf(to.value)) else None)
    case TAllOf(ts) => SAllOf(multiset(ShapesOf(ts)))
    case TSequence(ts) => SSequence(multiset(ShapesOf(ts)))
    case _ => SLeaf(t.inner)
  }

  function ShapesOf(ts: seq<InferredType>): (r: seq<Shape>)
    ensures hide *; |r| == |ts|
    ensures forall i :: 0 <= i < |ts| ==> r[i] == ShapeOf(ts[i])
    decreases ts
  {
    if ts == [] then [] else [ShapeOf(ts[0])] + ShapesOf(ts[1..])
  }

  function FieldShapes(fs: seq<Field<InferredType>>): (r: seq<Field<Shape>>)
    ensures hide *; |r| == |fs|
    ensures forall i :: 0 <= i < |fs| ==> r[i] == Field(fs[i].name, ShapeOf(fs[i].of))
    decreases fs
  {
    if fs == [] then [] else [Field(fs[0].name, ShapeOf(fs[0].of))] + FieldShapes(fs[1..])
  }

  function CaseShape(c: Option<InferredType>): Option<Shape>
    decreases c
  {
    hide *;
    if c.Some? then Some(ShapeOf(c.value)) else None
  }

  function CaseShapes(vs: seq<Field<Option<InferredType>>>): (r: seq<Field<Option<Shape>>>)
    ensures hide *; |r| == |vs|
    ensures forall i :: 0 <= i < |vs| ==> r[i] == Field(vs[i].name, CaseShape(vs[i].of))
    decreases vs
  {
    if vs == [] then [] else [Field(vs[0].name, CaseShape(vs[0].of))] + CaseShapes(vs[1..])
  }

  predicate Same(a: InferredType, b: InferredType) { ShapeOf(a) == ShapeOf(b) }

  predicate SameSide(a: Option<InferredType>, b: Option<InferredType>) {
    a.Some? == b.Some? && (a.Some? ==> Same(a.value, b.value))
  }

  /** Types are the same when they are of one kind and their parts are the same; only alternatives have no order. */
  ghost predicate SamePartwise(x: TypeInternal, y: TypeInternal) {
    hide *;
    match (x, y)
    case (TList(a), TList(b)) => Same(a, b)
    case (TOption(a), TOption(b)) => Same(a, b)
    case (TTuple(a), TTuple(b)) => |a| == |b| && forall i :: 0 <= i < |a| ==> Same(a[i], b[i])
    case (TRecord(a), TRecord(b)) => |a| == |b| && forall i :: 0 <= i < |a| ==> a[i].name == b[i].name && Same(a[i].of, b[i].of)
    case (TVariant(a), TVariant(b)) => |a| == |b| && forall i :: 0 <= i < |a| ==> a[i].name == b[i].name && SameSide(a[i].of, b[i].of)
    case (TResult(ok, error), TResult(ok2, error2)) => SameSide(ok, ok2) && SameSide(error, error2)
    case (TRange(a, end), TRange(b, end2)) => Same(a, b) && SameSide(end, end2)
    case (TAllOf(a), TAllOf(b)) => multiset(ShapesOf(a)) == multiset(ShapesOf(b))
    case (TSequence(a), TSequence(b)) => multiset(ShapesOf(a)) == multiset(ShapesOf(b))
    case _ => x == y
  }

  lemma SameExactly(a: InferredType, b: InferredType)
    ensures Same(a, b) <==> SamePartwise(a.inner, b.inner)
  {
    hide ShapesOf, FieldShapes, CaseShapes;
    match (a.inner, b.inner) {
      case (TTuple(ts), TTuple(us)) => SameItems(ts, us);
      case (TRecord(fs), TRecord(gs)) => SameFields(fs, gs);
      case (TVariant(vs), TVariant(ws)) => SameCases(vs, ws);
      case _ =>
    }
  }

  lemma SameItems(ts: seq<InferredType>, us: seq<InferredType>)
    ensures ShapesOf(ts) == ShapesOf(us) <==> |ts| == |us| && forall i :: 0 <= i < |ts| ==> Same(ts[i], us[i])
  {
    hide ShapesOf, ShapeOf;
    if ShapesOf(ts) == ShapesOf(us) {
      forall i | 0 <= i < |ts| ensures ShapeOf(ts[i]) == ShapeOf(us[i]) {
        assert ShapesOf(ts)[i] == ShapesOf(us)[i];
      }
    }
  }

  lemma SameFields(fs: seq<Field<InferredType>>, gs: seq<Field<InferredType>>)
    ensures FieldShapes(fs) == FieldShapes(gs)
            <==> |fs| == |gs| && forall i :: 0 <= i < |fs| ==> fs[i].name == gs[i].name && Same(fs[i].of, gs[i].of)
  {
    hide FieldShapes, ShapeOf;
    if FieldShapes(fs) == FieldShapes(gs) {
      forall i | 0 <= i < |fs| ensures fs[i].name == gs[i].name && ShapeOf(fs[i].of) == ShapeOf(gs[i].of) {
        assert FieldShapes(fs)[i] == FieldShapes(gs)[i];
      }
    }
  }

  lemma SameCases(vs: seq<Field<Option<InferredType>>>, ws: seq<Field<Option<InferredType>>>)
    ensures CaseShapes(vs) == CaseShapes(ws)
            <==> |vs| == |ws| && forall i :: 0 <= i < |vs| ==> vs[i].name == ws[i].name && SameSide(vs[i].of, ws[i].of)
  {
    hide CaseShapes, ShapeOf;
    if CaseShapes(vs) == CaseShapes(ws) {
      forall i | 0 <= i < |vs| ensures vs[i].name == ws[i].name && CaseShape(vs[i].of) == CaseShape(ws[i].of) {
        assert CaseShapes(vs)[i] == CaseShapes(ws)[i];
      }
    }
  }

  predicate IsNumber(t: InferredType) { t.inner.TNum? }

  // ---------- flattening ----------

  /** Alternatives of alternatives become alternatives. */
  function Flatten(ts: seq<InferredType>): (r: seq<InferredType>)
    ensures hide *; forall t :: t in r ==> !t.inner.TAllOf?
    ensures Total(r) <= Total(ts)
    decreases Total(ts)
  {
    if ts == [] then [] else
    var rest := Flatten(ts[1..]);
    match ts[0].inner
    case TAllOf(nested) =>
      TotalAppend(Flatten(nested), rest);
      Flatten(nested) + rest
    case _ =>
      TotalAppend([ts[0]], rest);
      [ts[0]] + rest
  }

  // ---------- a measure ----------

  /** The height of a type, where alternatives count with their sum. */
  function Height(t: InferredType): (n: nat)
    ensures hide *; n >= 1
    decreases t
  {
    match t.inner
    case TList(e) => 1 + Height(e)
    case TTuple(ts) => 1 + Highest(ts)
    case TRecord(fs) => 1 + HighestField(fs)
    case TOption(s) => 1 + Height(s)
    case TResult(ok, error) =>
      1 + Max(if ok.Some? then Height(ok.value) else 0, if error.Some? then Height(error.value) else 0)
    case TVariant(vs) => 1 + HighestCase(vs)
    case TRange(from, to) => 1 + Max(Height(from), if to.Some? then Height(to.value) else 0)
    case TAllOf(ts) => 2 + Total(ts)
    case _ => 1
  }

  function Max(a: nat, b: nat): nat { if a >= b then a else b }

  function Total(ts: seq<InferredType>): nat
    decreases ts
  {
    hide *;
    if ts == [] then 0 else Height(ts[0]) + Total(ts[1..])
  }

  function Highest(ts: seq<InferredType>): (n: nat)
    ensures hide *; forall t :: t in ts ==> Height(t) <= n
    decreases ts
  {
    if ts == [] then 0 else Max(Height(ts[0]), Highest(ts[1..]))
  }

  function HighestField(fs: seq<Field<InferredType>>): (n: nat)
    ensures hide *; forall f :: f in fs ==> Height(f.of) <= n
    decreases fs
  {
    if fs == [] then 0 else Max(Height(fs[0].of), HighestField(fs[1..]))
  }

  function HighestCase(vs: seq<Field<Option<InferredType>>>): (n: nat)
    ensures hide *; forall v :: v in vs && v.of.Some? ==> Height(v.of.value) <= n
    decreases vs
  {
    if vs == [] then 0 else Max(if vs[0].of.Some? then Height(vs[0].of.value) else 0, HighestCase(vs[1..]))
  }

  lemma TotalAppend(a: seq<InferredType>, b: seq<InferredType>)
    ensures Total(a + b) == Total(a) + Total(b)
  {
    hide Height;
    if a == [] {
      assert a + b == b;
    } else {
      assert (a + b)[1..] == a[1..] + b;
    }
  }

  lemma BelowHighestField(fs: seq<Field<InferredType>>, n: nat)
    requires forall f :: f in fs ==> Height(f.of) <= n
    ensures HighestField(fs) <= n
  {
  }

  // ---------- names ----------

  function NamesOf<X>(fs: seq<Field<X>>): (ns: seq<string>)
    ensures |ns| == |fs| && forall i :: 0 <= i < |fs| ==> ns[i] == fs[i].name
  {
    if fs == [] then [] else [fs[0].name] + NamesOf(fs[1..])
  }

  function ToSet(names: seq<string>): set<string> { set n | n in names }

  lemma RepeatsFirst(names: seq<string>)
    requires hide *; names != []
    ensures NoRepeats(names) <==> names[0] !in names[1..] && NoRepeats(names[1..])
  {
    if NoRepeats(names) {
      assert forall i :: 0 <= i < |names| - 1 ==> names[1..][i] == names[i + 1];
    }
    if names[0] !in names[1..] && NoRepeats(names[1..]) {
      forall i, j | 0 <= i < j < |names| ensures names[i] != names[j] {
        assert names[j] == names[1..][j - 1];
        if i > 0 {
          assert names[i] == names[1..][i - 1];
        }
      }
    }
  }

  lemma {:induction false} NamesCount(names: seq<string>)
    ensures hide *; |ToSet(names)| <= |names|
    ensures NoRepeats(names) <==> |ToSet(names)| == |names|
  {
    hide NoRepeats;
    if names == [] {
      assert ToSet(names) == {} && NoRepeats(names) by { NoneRepeats(); }
    } else {
      NamesCount(names[1..]);
      RepeatsFirst(names);
      assert ToSet(names) == {names[0]} + ToSet(names[1..]);
    }
  }

  lemma NoneRepeats()
    ensures NoRepeats([])
  {
  }

  lemma SubsetSame(a: set<string>, b: set<string>)
    requires a <= b && |a| == |b|
    ensures a == b
  {
    if a != b {
      var x :| x in b && x !in a;
      assert a <= b - {x};
      Subsets(a, b - {x});
    }
  }

  lemma Subsets(a: set<string>, b: set<string>)
    requires a <= b
    ensures |a| <= |b|
  {
    assert b == a + (b - a);
  }
}
