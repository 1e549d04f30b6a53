/** Types as places with leaves, alternatives for the same place, and tasks whose parts are pointers to other tasks. */
module MergeTasks {
  import opened Syntax
  import opened Inferred
  import InstanceNames
  import Values

  // ===== Types as places with leaves: parts, paths, leaves, and the merging of a list of types into one.

  // ---------- origins ----------

  function AddNew(origins: seq<TypeOrigin>, more: seq<TypeOrigin>): seq<TypeOrigin>
    decreases |more|
  {
    if more == [] then origins
    else AddNew(if more[0] in origins then origins else origins + [more[0]], more[1..])
  }

  function AddOrigin(old_: TypeOrigin, new_: TypeOrigin): TypeOrigin {
    match old_
    case NoOrigin => new_
    case Multiple(existing) => Multiple(AddNew(existing, if new_.Multiple? then new_.origins else [new_]))
    case _ =>
      if new_.Multiple? then
        var updated := AddNew([old_], new_.origins);
        if |updated| == 1 then updated[0] else Multiple(updated)
      else if new_ == old_ then old_
      else Multiple([old_, new_])
  }

  /** The origins behind an origin. */
  ghost function Origins(o: TypeOrigin): set<TypeOrigin> {
    match o
    case NoOrigin => {}
    case Multiple(os) => set x | x in os && x != NoOrigin
    case _ => {o}
  }

  lemma NewAdded(a: seq<TypeOrigin>, b: seq<TypeOrigin>)
    ensures forall x :: x in AddNew(a, b) <==> x in a || x in b
    decreases |b|
  {
    if b != [] {
      NewAdded(if b[0] in a then a else a + [b[0]], b[1..]);
      assert forall x :: x in b <==> x == b[0] || x in b[1..];
    }
  }

  /** Adding an origin forgets none and makes up none; the type is a default if one of both is. */
  lemma OriginsAdded(a: TypeOrigin, b: TypeOrigin)
    ensures Origins(AddOrigin(a, b)) == Origins(a) + Origins(b)
    ensures AddOrigin(a, b).IsDefault() <==> a.IsDefault() || b.IsDefault()
  {
    hide AddNew, TypeOrigin.IsDefault;
    var more := if b.Multiple? then b.origins else [b];
    NewAdded(if a.Multiple? then a.origins else [a], more);
    DefaultOf(a);
    DefaultOf(b);
    DefaultOf(AddOrigin(a, b));
    if b.Multiple? && !a.Multiple? && !a.NoOrigin? {
      var updated := AddNew([a], b.origins);
      assert a in updated;
    }
    assert [a, b][0] == a && [a, b][1] == b;
    assert forall x :: x in [a, b] <==> x == a || x == b;
  }

  lemma DefaultOf(o: TypeOrigin)
    ensures o.IsDefault() <==> o.Default? || (o.Multiple? && exists x :: x in o.origins && x.IsDefault())
  {
  }

  // ---------- sizes ----------

  function Size(t: InferredType): (n: nat)
    ensures hide *; n >= 1
    decreases t
  {
    match t.inner
    case TList(e) => 1 + Size(e)
    case TTuple(ts) => 1 + Sizes(ts)
    case TRecord(fs) => 1 + FieldSizes(fs)
    case TOption(s) => 1 + Size(s)
    case TResult(ok, error) => 1 + (if ok.Some? then Size(ok.value) else 0) + (if error.Some? then Size(error.value) else 0)
    case TVariant(vs) => 1 + CaseSizes(vs)
    case TAllOf(ts) => 1 + Sizes(ts)
    case _ => 1
  }

  function Sizes(ts: seq<InferredType>): nat
    decreases ts
  {
    hide *;
    if ts == [] then 0 else Size(ts[0]) + Sizes(ts[1..])
  }

  function FieldSizes(fs: seq<Field<InferredType>>): nat
    decreases fs
  {
    hide *;
    if fs == [] then 0 else Size(fs[0].of) + FieldSizes(fs[1..])
  }

  function CaseSizes(vs: seq<Field<Option<InferredType>>>): nat
    decreases vs
  {
    hide *;
    if vs == [] then 0 else (if vs[0].of.Some? then Size(vs[0].of.value) else 0) + CaseSizes(vs[1..])
  }

  lemma SizesAppend(a: seq<InferredType>, b: seq<InferredType>)
    ensures Sizes(a + b) == Sizes(a) + Sizes(b)
  {
    if a == [] {
      assert a + b == b;
    } else {
      assert (a + b)[1..] == a[1..] + b;
    }
  }

  // ---------- parts ----------

  type Path = seq<string>

  /** The place of a part in the type around it. */
  datatype Place = AtField(name: string) | AtCase(name: string) | AtItem(i: nat, size: nat) | AtElem | AtSome | AtOk | AtErr

  function Suffix(l: Place): Path {
    match l
    case AtField(name) => [name]
    case AtCase(name) => [name]
    case AtItem(i, size) => ["tuple-size::" + Values.Digits(size), "tuple-index::" + Values.Digits(i)]
    case AtElem => ["list"]
    case AtSome => ["std_option"]
    case AtOk => ["std_result", "ok"]
    case AtErr => ["std_result", "error"]
  }

  datatype Part = Part(place: Place, typ: InferredType)

  predicate HasParts(t: InferredType) {
    match t.inner
    case TList(_) => true
    case TTuple(_) => true
    case TRecord(_) => true
    case TOption(_) => true
    case TResult(_, _) => true
    case TVariant(_) => true
    case _ => false
  }

  /** The parts of a type, in the order in which they become tasks. */
  function Parts(t: InferredType): (ps: seq<Part>)
    ensures hide *; PartSizes(ps) < Size(t)
  {
    match t.inner
    case TList(e) => [Part(AtElem, e)]
    case TTuple(ts) => ItemParts(ts, 0, |ts|)
    case TRecord(fs) => FieldParts(fs)
    case TOption(s) => [Part(AtSome, s)]
    case TResult(ok, error) =>
      PartSizesAppend(if ok.Some? then [Part(AtOk, ok.value)] else [], if error.Some? then [Part(AtErr, error.value)] else []);
      (if ok.Some? then [Part(AtOk, ok.value)] else []) + (if error.Some? then [Part(AtErr, error.value)] else [])
    case TVariant(vs) => CaseParts(vs)
    case _ => []
  }

  function PartSizes(ps: seq<Part>): nat {
    hide *;
    if ps == [] then 0 else Size(ps[0].typ) + PartSizes(ps[1..])
  }

  lemma PartSizesAppend(a: seq<Part>, b: seq<Part>)
    ensures PartSizes(a + b) == PartSizes(a) + PartSizes(b)
  {
    hide Size;
    if a == [] {
      assert a + b == b;
    } else {
      assert (a + b)[1..] == a[1..] + b;
    }
  }

  function ItemParts(ts: seq<InferredType>, i: nat, size: nat): (ps: seq<Part>)
    ensures hide *; |ps| == |ts| && PartSizes(ps) == Sizes(ts)
    ensures forall k :: 0 <= k < |ts| ==> ps[k] == Part(AtItem(i + k, size), ts[k])
  {
    if ts == [] then [] else [Part(AtItem(i, size), ts[0])] + ItemParts(ts[1..], i + 1, size)
  }

  function FieldParts(fs: seq<Field<InferredType>>): (ps: seq<Part>)
    ensures hide *; |ps| == |fs| && PartSizes(ps) == FieldSizes(fs)
    ensures forall k :: 0 <= k < |fs| ==> ps[k] == Part(AtField(fs[k].name), fs[k].of)
  {
    if fs == [] then [] else [Part(AtField(fs[0].name), fs[0].of)] + FieldParts(fs[1..])
  }

  /** Only cases with a payload have a part. */
  function CaseParts(vs: seq<Field<Option<InferredType>>>): (ps: seq<Part>)
    ensures hide *; PartSizes(ps) == CaseSizes(vs)
  {
    if vs == [] then []
    else if vs[0].of.Some? then [Part(AtCase(vs[0].name), vs[0].of.value)] + CaseParts(vs[1..])
    else CaseParts(vs[1..])
  }

  /** What the parts are. */
  ghost predicate PartIs(t: InferredType, place: Place, x: InferredType) {
    match place
    case AtElem => t.inner == TList(x)
    case AtSome => t.inner == TOption(x)
    case AtOk => t.inner.TResult? && t.inner.ok == Some(x)
    case AtErr => t.inner.TResult? && t.inner.error == Some(x)
    case AtField(name) => t.inner.TRecord? && Field(name, x) in t.inner.fields
    case AtCase(name) => t.inner.TVariant? && Field(name, Some(x)) in t.inner.variants
    case AtItem(i, size) => t.inner.TTuple? && |t.inner.items| == size && i < size && t.inner.items[i] == x
  }

  lemma PartsExactly(t: InferredType, place: Place, x: InferredType)
    ensures Part(place, x) in Parts(t) <==> PartIs(t, place, x)
  {
    hide Size, CaseParts, ItemParts, FieldParts;
    match t.inner {
      case TVariant(vs) => CasePartsExactly(vs, place, x);
      case TRecord(fs) => FieldPartsExactly(fs, place, x);
      case TTuple(ts) => ItemPartsExactly(ts, place, x);
      case _ =>
    }
  }

  lemma {:induction false} CasePartsExactly(vs: seq<Field<Option<InferredType>>>, place: Place, x: InferredType)
    ensures Part(place, x) in CaseParts(vs) <==> place.AtCase? && Field(place.name, Some(x)) in vs
  {
    if vs != [] {
      CasePartsExactly(vs[1..], place, x);
      assert forall v :: v in vs <==> v == vs[0] || v in vs[1..];
    }
  }

  lemma FieldPartsExactly(fs: seq<Field<InferredType>>, place: Place, x: InferredType)
    ensures Part(place, x) in FieldParts(fs) <==> place.AtField? && Field(place.name, x) in fs
  {
    hide FieldParts;
    var ps := FieldParts(fs);
    if Part(place, x) in ps {
      var k :| 0 <= k < |ps| && ps[k] == Part(place, x);
      assert fs[k] == Field(place.name, x);
    }
    if place.AtField? && Field(place.name, x) in fs {
      var k :| 0 <= k < |fs| && fs[k] == Field(place.name, x);
      assert ps[k] == Part(place, x);
    }
  }

  lemma ItemPartsExactly(ts: seq<InferredType>, place: Place, x: InferredType)
    ensures Part(place, x) in ItemParts(ts, 0, |ts|) <==> place.AtItem? && place.size == |ts| && place.i < |ts| && ts[place.i] == x
  {
    hide ItemParts;
    var ps := ItemParts(ts, 0, |ts|);
    if Part(place, x) in ps {
      var k :| 0 <= k < |ps| && ps[k] == Part(place, x);
      assert ps[k] == Part(AtItem(0 + k, |ts|), ts[k]);
    }
    if place.AtItem? && place.size == |ts| && place.i < |ts| && ts[place.i] == x {
      assert ps[place.i] == Part(AtItem(0 + place.i, |ts|), ts[place.i]);
    }
  }

  /** The parts of one type have paths of their own. */
  lemma {:induction false} PlacesApart(t: InferredType, p: Place, x: InferredType, q: Place, y: InferredType)
    requires PartIs(t, p, x) && PartIs(t, q, y) && Suffix(p) == Suffix(q)
    ensures p == q
  {
    hide Values.Digits;
    if p.AtItem? {
      assert Suffix(p)[1][13..] == Values.Digits(p.i) && Suffix(q)[1][13..] == Values.Digits(q.i);
      InstanceNames.DigitsApart(p.i, q.i);
    } else if p.AtField? || p.AtCase? {
      assert Suffix(p)[0] == p.name && Suffix(q)[0] == q.name;
    } else if p.AtOk? || p.AtErr? {
      assert Suffix(p)[1] == Suffix(q)[1];
    }
  }

  lemma PartSmaller(ps: seq<Part>, c: Part)
    requires c in ps
    ensures Size(c.typ) <= PartSizes(ps)
  {
  }

  lemma MemberSmaller(ts: seq<InferredType>, t: InferredType)
    requires t in ts
    ensures Size(t) <= Sizes(ts)
  {
  }

  // ---------- skeletons ----------

  datatype CaseKind = CaseKind(name: string, payload: bool)

  /** What is left of a type with parts when the types of its parts are forgotten; the cases of a variant have no order. */
  datatype Skeleton =
    | RecordBones(names: seq<string>)
    | VariantBones(cases: set<CaseKind>)
    | TupleBones(size: nat)
    | ListBones
    | OptionBones
    | ResultBones(ok: bool, error: bool)

  ghost function KindsOf<X>(cs: seq<Field<Option<X>>>): set<CaseKind> {
    set i | 0 <= i < |cs| :: CaseKind(cs[i].name, cs[i].of.Some?)
  }

  predicate NamedApart<X>(fs: seq<Field<X>>) { NoRepeats(NamesOf(fs)) }

  /** Variants that repeat a name have none. */
  ghost function CaseBones<X>(cs: seq<Field<Option<X>>>): Option<Skeleton> {
    if NamedApart(cs) then Some(VariantBones(KindsOf(cs))) else None
  }

  ghost function SkeletonOf(t: InferredType): Option<Skeleton> {
    match t.inner
    case TRecord(fs) => Some(RecordBones(NamesOf(fs)))
    case TVariant(vs) => CaseBones(vs)
    case TTuple(ts) => Some(TupleBones(|ts|))
    case TList(_) => Some(ListBones)
    case TOption(_) => Some(OptionBones)
    case TResult(ok, error) => Some(ResultBones(ok.Some?, error.Some?))
    case _ => None
  }

  // ---------- leaves ----------

  /** What a type can have at a path: a leaf, or a type with parts of this skeleton. */
  datatype Mark = Leaf(shape: Shape) | Bones(skeleton: Skeleton)

  ghost predicate Stands(s: Option<Skeleton>, at: Path, p: Path, leaf: Mark) {
    p == at && leaf.Bones? && s == Some(leaf.skeleton)
  }

  /** The type, standing at a path, has this leaf or skeleton at that path. Unknown types are not leaves. */
  ghost predicate HasLeaf(t: InferredType, at: Path, p: Path, leaf: Mark)
    decreases Size(t)
  {
    hide HasLeaf, CaseParts, SkeletonOf, Stands;
    if HasParts(t) then
      || Stands(SkeletonOf(t), at, p, leaf)
      || exists c | c in Parts(t) :: PartSmaller(Parts(t), c); HasLeaf(c.typ, at + Suffix(c.place), p, leaf)
    else if t.inner.TAllOf? then
      exists x | x in t.inner.types :: MemberSmaller(t.inner.types, x); HasLeaf(x, at, p, leaf)
    else !t.inner.TUnknown? && p == at && leaf == Leaf(ShapeOf(t))
  }

  ghost predicate AnyLeaf(ts: seq<InferredType>, at: Path, p: Path, leaf: Mark) {
    exists t :: t in ts && HasLeaf(t, at, p, leaf)
  }

  /** The same leaves at the same paths. */
  ghost predicate SameLeaves(t: InferredType, ts: seq<InferredType>, at: Path) {
    forall p, leaf :: HasLeaf(t, at, p, leaf) <==> AnyLeaf(ts, at, p, leaf)
  }

  /** Parts of equal types are equal, one by one. */
  lemma PartsSame(a: InferredType, b: InferredType)
    requires hide *; Same(a, b) && HasParts(a)
    ensures HasParts(b) && |Parts(a)| == |Parts(b)|
    ensures forall k :: 0 <= k < |Parts(a)| ==> Parts(a)[k].place == Parts(b)[k].place && Same(Parts(a)[k].typ, Parts(b)[k].typ)
  {
    hide CaseParts, FieldParts, ItemParts, FieldShapes, ShapesOf, PartSizes;
    match a.inner
    case TTuple(ts) =>
      assert ShapesOf(ts) == ShapesOf(b.inner.items);
      assert forall k :: 0 <= k < |ts| ==> ShapesOf(ts)[k] == ShapesOf(b.inner.items)[k];
    case TRecord(fs) =>
      assert forall k :: 0 <= k < |fs| ==> FieldShapes(fs)[k] == FieldShapes(b.inner.fields)[k];
    case TVariant(vs) => CasePartsSame(vs, b.inner.variants);
    case _ =>
  }

  lemma CasePartsSame(vs: seq<Field<Option<InferredType>>>, ws: seq<Field<Option<InferredType>>>)
    requires hide *; CaseShapes(vs) == CaseShapes(ws)
    ensures |CaseParts(vs)| == |CaseParts(ws)|
    ensures forall k :: 0 <= k < |CaseParts(vs)| ==>
      CaseParts(vs)[k].place == CaseParts(ws)[k].place && Same(CaseParts(vs)[k].typ, CaseParts(ws)[k].typ)
    decreases |vs|
  {
    hide ShapeOf, Size;
    if vs != [] {
      assert CaseShapes(vs)[0] == CaseShapes(ws)[0];
      assert CaseShapes(vs[1..]) == CaseShapes(vs)[1..] && CaseShapes(ws[1..]) == CaseShapes(ws)[1..];
      CasePartsSame(vs[1..], ws[1..]);
    }
  }

  lemma BonesSame(a: InferredType, b: InferredType)
    requires Same(a, b)
    ensures SkeletonOf(a) == SkeletonOf(b)
  {
    hide ShapesOf, FieldShapes, CaseShapes, CaseBones;
    match a.inner
    case TRecord(fs) => FieldNamesSame(fs, b.inner.fields);
    case TVariant(vs) => CaseBonesSame(vs, b.inner.variants);
    case TTuple(ts) => assert |ShapesOf(ts)| == |ts| && |ShapesOf(b.inner.items)| == |b.inner.items|;
    case _ =>
  }

  lemma FieldNamesSame(fs: seq<Field<InferredType>>, gs: seq<Field<InferredType>>)
    requires hide *; FieldShapes(fs) == FieldShapes(gs)
    ensures NamesOf(fs) == NamesOf(gs)
  {
    hide *;
    forall i | 0 <= i < |fs| ensures NamesOf(fs)[i] == NamesOf(gs)[i] {
      assert FieldShapes(fs)[i] == FieldShapes(gs)[i];
    }
  }

  lemma CaseBonesSame(vs: seq<Field<Option<InferredType>>>, ws: seq<Field<Option<InferredType>>>)
    requires hide *; CaseShapes(vs) == CaseShapes(ws)
    ensures CaseBones(vs) == CaseBones(ws)
  {
    hide ShapeOf, CaseShapes;
    forall i | 0 <= i < |vs| ensures vs[i].name == ws[i].name && vs[i].of.Some? == ws[i].of.Some? {
      assert CaseShapes(vs)[i] == CaseShapes(ws)[i];
    }
    assert NamesOf(vs) == NamesOf(ws) && KindsOf(vs) == KindsOf(ws);
  }

  lemma {:induction false} EqualLeaves(a: InferredType, b: InferredType, at: Path, p: Path, leaf: Mark)
    requires Same(a, b) && HasLeaf(a, at, p, leaf)
    ensures HasLeaf(b, at, p, leaf)
    decreases Size(a)
  {
    hide Parts, ShapeOf, Suffix, Size, ShapesOf, Sizes, PartSizes, SkeletonOf, Stands;
    if HasParts(a) {
      PartsSame(a, b);
      BonesSame(a, b);
      if Stands(SkeletonOf(a), at, p, leaf) {
        return;
      }
      var c :| c in Parts(a) && HasLeaf(c.typ, at + Suffix(c.place), p, leaf);
      var k :| 0 <= k < |Parts(a)| && Parts(a)[k] == c;
      PartSmaller(Parts(a), c);
      EqualLeaves(c.typ, Parts(b)[k].typ, at + Suffix(c.place), p, leaf);
      assert Parts(b)[k] in Parts(b);
    } else if a.inner.TAllOf? {
      var x :| x in a.inner.types && HasLeaf(x, at, p, leaf);
      AllOfSame(a, b);
      MemberSmaller(a.inner.types, x);
      AllOfSize(a);
      var y := EqualMember(a.inner.types, b.inner.types, x);
      EqualLeaves(x, y, at, p, leaf);
    } else {
      LeafSame(a, b);
    }
  }

  lemma AllOfSame(a: InferredType, b: InferredType)
    requires hide *; Same(a, b) && a.inner.TAllOf?
    ensures b.inner.TAllOf? && multiset(ShapesOf(a.inner.types)) == multiset(ShapesOf(b.inner.types))
  {
    hide ShapeOf, ShapesOf;
    AllOfShape(a);
    AllOfShape(b);
  }

  lemma AllOfShape(t: InferredType)
    ensures hide *; ShapeOf(t).SAllOf? <==> t.inner.TAllOf?
    ensures t.inner.TAllOf? ==> ShapeOf(t).types == multiset(ShapesOf(t.inner.types))
  {
    hide ShapesOf;
  }

  lemma AllOfSize(a: InferredType)
    requires a.inner.TAllOf?
    ensures Size(a) == 1 + Sizes(a.inner.types)
  {
  }

  lemma LeafSame(a: InferredType, b: InferredType)
    requires Same(a, b) && !HasParts(a) && !a.inner.TAllOf?
    ensures !HasParts(b) && !b.inner.TAllOf? && b.inner.TUnknown? == a.inner.TUnknown?
  {
  }

  lemma EqualMember(ts: seq<InferredType>, us: seq<InferredType>, x: InferredType) returns (y: InferredType)
    requires multiset(ShapesOf(ts)) == multiset(ShapesOf(us)) && x in ts
    ensures y in us && Same(x, y)
  {
    hide ShapeOf;
    var k :| 0 <= k < |ts| && ts[k] == x;
    assert ShapesOf(ts)[k] in multiset(ShapesOf(ts));
    assert ShapeOf(x) in multiset(ShapesOf(us));
    var j :| 0 <= j < |us| && ShapesOf(us)[j] == ShapeOf(x);
    y := us[j];
  }

  // ===== Several types for the same place: alternatives without repetitions.

  function FindSame(seen: seq<InferredType>, t: InferredType): (i: Option<nat>)
    ensures hide *; i.Some? ==> i.value < |seen| && Same(seen[i.value], t)
    ensures i.None? ==> forall x :: x in seen ==> !Same(x, t)
  {
    if seen == [] then None
    else if Same(seen[0], t) then Some(0)
    else var i := FindSame(seen[1..], t); if i.Some? then Some(i.value + 1) else None
  }

  /** A type that is there already lends its origin to the new one, which takes its place. */
  function Enter(seen: seq<InferredType>, t: InferredType): seq<InferredType> {
    hide *;
    var i := FindSame(seen, t);
    if i.Some? then seen[i.value := InferredType(t.inner, AddOrigin(t.origin, seen[i.value].origin))] else seen + [t]
  }

  /** Alternatives are taken apart, the others are entered. */
  function Gather(queue: seq<InferredType>, seen: seq<InferredType>): seq<InferredType>
    decreases Sizes(queue)
  {
    hide AddOrigin, FindSame, Same, Size;
    if queue == [] then seen
    else if queue[0].inner.TAllOf? then
      SizesAppend(queue[1..], queue[0].inner.types);
      AllOfSize(queue[0]);
      Gather(queue[1..] + queue[0].inner.types, seen)
    else Gather(queue[1..], Enter(seen, queue[0]))
  }

  function Known(ts: seq<InferredType>): (r: seq<InferredType>)
    ensures hide *; forall t :: t in r <==> t in ts && !t.inner.TUnknown?
  {
    if ts == [] then [] else (if ts[0].inner.TUnknown? then [] else [ts[0]]) + Known(ts[1..])
  }

  function Alternatives(ts: seq<InferredType>): InferredType {
    if ts == [] then UNKNOWN else if |ts| == 1 then ts[0] else Plain(TAllOf(ts))
  }

  function Merge(types: seq<InferredType>): InferredType { Alternatives(Known(Gather(types, []))) }

  /** The loop over the queue. */
  method MergeAll(types: seq<InferredType>) returns (r: InferredType)
    ensures r == Merge(types)
  {
    hide Enter, Size;
    var queue, seen := types, [];
    while queue != []
      invariant Gather(queue, seen) == Gather(types, [])
      decreases Sizes(queue)
    {
      var t := queue[0];
      queue := queue[1..];
      if t.inner.TAllOf? {
        SizesAppend(queue, t.inner.types);
        AllOfSize(t);
        queue := queue + t.inner.types;
      } else {
        SizePositive(t);
        seen := Enter(seen, t);
      }
    }
    r := Alternatives(Known(seen));
  }

  lemma SizePositive(t: InferredType)
    ensures Size(t) >= 1
  {
  }

  // ---------- normal form ----------

  /** No two are the same and none is a set of alternatives. */
  ghost predicate Separate(ts: seq<InferredType>) {
    hide *;
    && (forall i, j :: 0 <= i < j < |ts| ==> !Same(ts[i], ts[j]))
    && (forall t :: t in ts ==> !t.inner.TAllOf?)
  }

  /** At least two different alternatives, all of them known and none of them alternatives themselves. */
  ghost predicate NormalForm(t: InferredType) {
    hide *;
    t.inner.TAllOf? ==> |t.inner.types| >= 2 && Separate(t.inner.types) && forall x :: x in t.inner.types ==> !x.inner.TUnknown?
  }

  lemma EnterSeparate(seen: seq<InferredType>, t: InferredType)
    requires Separate(seen) && !t.inner.TAllOf?
    ensures Separate(Enter(seen, t))
  {
    hide ShapeOf, FindSame, AddOrigin;
    var i := FindSame(seen, t);
    if i.Some? {
      OriginNotShape(t, AddOrigin(t.origin, seen[i.value].origin));
    }
  }

  lemma OriginNotShape(t: InferredType, origin: TypeOrigin)
    ensures Same(t, InferredType(t.inner, origin))
  {
  }

  lemma {:induction false} GatherSeparate(queue: seq<InferredType>, seen: seq<InferredType>)
    requires Separate(seen)
    ensures Separate(Gather(queue, seen))
    decreases Sizes(queue)
  {
    hide Enter, Separate, Size;
    if queue != [] {
      if queue[0].inner.TAllOf? {
        SizesAppend(queue[1..], queue[0].inner.types);
        AllOfSize(queue[0]);
        GatherSeparate(queue[1..] + queue[0].inner.types, seen);
      } else {
        SizePositive(queue[0]);
        EnterSeparate(seen, queue[0]);
        GatherSeparate(queue[1..], Enter(seen, queue[0]));
      }
    }
  }

  lemma KnownSeparate(ts: seq<InferredType>)
    requires Separate(ts)
    ensures Separate(Known(ts))
  {
    hide ShapeOf, Same;
    if ts != [] {
      assert Separate(ts[1..]) by {
        assert forall i :: 0 <= i < |ts| - 1 ==> ts[1..][i] == ts[i + 1];
      }
      KnownSeparate(ts[1..]);
      forall x | x in Known(ts[1..]) ensures !Same(ts[0], x) {
        var k :| 0 <= k < |ts[1..]| && ts[1..][k] == x;
        assert ts[k + 1] == x;
      }
    }
  }

  lemma NothingSeparate()
    ensures Separate([])
  {
  }

  lemma MergeNormal(types: seq<InferredType>)
    ensures NormalForm(Merge(types))
  {
    hide Gather, Known, Separate;
    NothingSeparate();
    GatherSeparate(types, []);
    KnownSeparate(Gather(types, []));
    var ts := Known(Gather(types, []));
    if |ts| == 1 {
      SeparateMember(ts, ts[0]);
    }
  }

  lemma SeparateMember(ts: seq<InferredType>, t: InferredType)
    requires Separate(ts) && t in ts
    ensures !t.inner.TAllOf?
  {
  }

  // ---------- leaves ----------

  lemma {:induction false} EnterLeaves(seen: seq<InferredType>, t: InferredType, at: Path, p: Path, leaf: Mark)
    ensures AnyLeaf(Enter(seen, t), at, p, leaf) <==> AnyLeaf(seen, at, p, leaf) || HasLeaf(t, at, p, leaf)
  {
    hide ShapeOf, FindSame, AddOrigin, HasLeaf;
    var i := FindSame(seen, t);
    var now := Enter(seen, t);
    if i.Some? {
      var old_ := seen[i.value];
      var new_ := now[i.value];
      OriginNotShape(t, new_.origin);
      SameLeavesBoth(t, new_, at, p, leaf);
      SameLeavesBoth(t, old_, at, p, leaf);
      assert new_ in now && old_ in seen;
      forall x | x in now && HasLeaf(x, at, p, leaf) ensures AnyLeaf(seen, at, p, leaf) || HasLeaf(t, at, p, leaf) {
        assert x in seen || x == new_;
      }
      forall x | x in seen && HasLeaf(x, at, p, leaf) ensures AnyLeaf(now, at, p, leaf) {
        var k :| 0 <= k < |seen| && seen[k] == x;
        assert now[k] in now;
      }
    } else {
      assert t in now;
      forall x | x in seen && HasLeaf(x, at, p, leaf) ensures AnyLeaf(now, at, p, leaf) {
        assert x in now;
      }
    }
  }

  lemma {:induction false} SameLeavesBoth(a: InferredType, b: InferredType, at: Path, p: Path, leaf: Mark)
    requires Same(a, b)
    ensures HasLeaf(a, at, p, leaf) <==> HasLeaf(b, at, p, leaf)
  {
    hide HasLeaf, ShapeOf;
    if HasLeaf(a, at, p, leaf) {
      EqualLeaves(a, b, at, p, leaf);
    }
    if HasLeaf(b, at, p, leaf) {
      EqualLeaves(b, a, at, p, leaf);
    }
  }

  lemma {:induction false} LeafAppend(a: seq<InferredType>, b: seq<InferredType>, at: Path, p: Path, leaf: Mark)
    ensures AnyLeaf(a + b, at, p, leaf) <==> AnyLeaf(a, at, p, leaf) || AnyLeaf(b, at, p, leaf)
  {
    hide HasLeaf;
    if AnyLeaf(a, at, p, leaf) {
      var t :| t in a && HasLeaf(t, at, p, leaf);
      assert t in a + b;
    }
    if AnyLeaf(b, at, p, leaf) {
      var t :| t in b && HasLeaf(t, at, p, leaf);
      assert t in a + b;
    }
  }

  lemma {:induction false} LeafFirst(ts: seq<InferredType>, at: Path, p: Path, leaf: Mark)
    requires hide *; ts != []
    ensures AnyLeaf(ts, at, p, leaf) <==> HasLeaf(ts[0], at, p, leaf) || AnyLeaf(ts[1..], at, p, leaf)
  {
    hide HasLeaf;
    assert ts == [ts[0]] + ts[1..];
    LeafAppend([ts[0]], ts[1..], at, p, leaf);
    assert ts[0] in [ts[0]];
  }

  lemma {:induction false} LeafOfAlternatives(t: InferredType, at: Path, p: Path, leaf: Mark)
    requires hide *; t.inner.TAllOf?
    ensures HasLeaf(t, at, p, leaf) <==> AnyLeaf(t.inner.types, at, p, leaf)
  {
    hide Parts, PartSizes, Size, Suffix;
  }

  lemma {:induction false} GatherLeaves(queue: seq<InferredType>, seen: seq<InferredType>, at: Path, p: Path, leaf: Mark)
    ensures AnyLeaf(Gather(queue, seen), at, p, leaf) <==> AnyLeaf(queue, at, p, leaf) || AnyLeaf(seen, at, p, leaf)
    decreases Sizes(queue)
  {
    hide Enter, HasLeaf, AnyLeaf, Size;
    if queue == [] {
      NoLeaf(at, p, leaf);
    } else {
      LeafFirst(queue, at, p, leaf);
      if queue[0].inner.TAllOf? {
        SizesAppend(queue[1..], queue[0].inner.types);
        AllOfSize(queue[0]);
        LeafAppend(queue[1..], queue[0].inner.types, at, p, leaf);
        LeafOfAlternatives(queue[0], at, p, leaf);
        GatherLeaves(queue[1..] + queue[0].inner.types, seen, at, p, leaf);
      } else {
        SizePositive(queue[0]);
        EnterLeaves(seen, queue[0], at, p, leaf);
        GatherLeaves(queue[1..], Enter(seen, queue[0]), at, p, leaf);
      }
    }
  }

  lemma NoLeaf(at: Path, p: Path, leaf: Mark)
    ensures !AnyLeaf([], at, p, leaf)
  {
  }

  lemma {:induction false} UnknownLeaf(t: InferredType, at: Path, p: Path, leaf: Mark)
    requires t.inner.TUnknown?
    ensures !HasLeaf(t, at, p, leaf)
  {
    hide Parts, ShapeOf, PartSizes, Size, Suffix;
  }

  lemma {:induction false} KnownLeaves(ts: seq<InferredType>, at: Path, p: Path, leaf: Mark)
    ensures AnyLeaf(Known(ts), at, p, leaf) <==> AnyLeaf(ts, at, p, leaf)
  {
    hide Known, HasLeaf;
    if AnyLeaf(ts, at, p, leaf) {
      var t :| t in ts && HasLeaf(t, at, p, leaf);
      if t.inner.TUnknown? {
        UnknownLeaf(t, at, p, leaf);
      }
      assert t in Known(ts);
    }
  }

  /** Merging loses no leaf and makes up none. */
  lemma {:induction false} MergeLeaves(types: seq<InferredType>, at: Path, p: Path, leaf: Mark)
    ensures HasLeaf(Merge(types), at, p, leaf) <==> AnyLeaf(types, at, p, leaf)
  {
    hide Gather, Known, HasLeaf, AnyLeaf;
    GatherLeaves(types, [], at, p, leaf);
    KnownLeaves(Gather(types, []), at, p, leaf);
    NoLeaf(at, p, leaf);
    var ts := Known(Gather(types, []));
    if ts == [] {
      UnknownLeaf(UNKNOWN, at, p, leaf);
    } else if |ts| == 1 {
      LeafFirst(ts, at, p, leaf);
      assert ts[1..] == [];
    } else {
      LeafOfAlternatives(Plain(TAllOf(ts)), at, p, leaf);
    }
  }

  // ---------- origins of alternatives ----------

  /** The type, or an alternative of it, has this shape and lends it this origin. */
  ghost predicate Lends(t: InferredType, shape: Shape, o: TypeOrigin)
    decreases Size(t)
  {
    hide *;
    if t.inner.TAllOf? then
      AllOfSize(t);
      exists x | x in t.inner.types :: MemberSmaller(t.inner.types, x); Lends(x, shape, o)
    else ShapeOf(t) == shape && o in Origins(t.origin)
  }

  ghost predicate AnyLends(ts: seq<InferredType>, shape: Shape, o: TypeOrigin) {
    exists t :: t in ts && Lends(t, shape, o)
  }

  lemma {:induction false} LendsAppend(a: seq<InferredType>, b: seq<InferredType>, shape: Shape, o: TypeOrigin)
    ensures AnyLends(a + b, shape, o) <==> AnyLends(a, shape, o) || AnyLends(b, shape, o)
  {
    hide Lends;
    assert forall t :: t in a + b <==> t in a || t in b;
  }

  lemma LendsFirst(ts: seq<InferredType>, shape: Shape, o: TypeOrigin)
    requires hide *; ts != []
    ensures AnyLends(ts, shape, o) <==> Lends(ts[0], shape, o) || AnyLends(ts[1..], shape, o)
  {
    hide Lends;
    assert forall t :: t in ts <==> t == ts[0] || t in ts[1..];
  }

  lemma {:induction false} ReplacedLends(t: InferredType, old_: InferredType, shape: Shape, o: TypeOrigin)
    requires hide *; !t.inner.TAllOf? && !old_.inner.TAllOf? && Same(old_, t)
    ensures Lends(InferredType(t.inner, AddOrigin(t.origin, old_.origin)), shape, o) <==>
            Lends(t, shape, o) || Lends(old_, shape, o)
  {
    hide ShapeOf, AddOrigin, Origins;
    OriginNotShape(t, AddOrigin(t.origin, old_.origin));
    OriginsAdded(t.origin, old_.origin);
  }

  lemma {:induction false} EnterLends(seen: seq<InferredType>, t: InferredType, shape: Shape, o: TypeOrigin)
    requires !t.inner.TAllOf? && forall x :: x in seen ==> !x.inner.TAllOf?
    ensures AnyLends(Enter(seen, t), shape, o) <==> AnyLends(seen, shape, o) || Lends(t, shape, o)
    ensures forall x :: x in Enter(seen, t) ==> !x.inner.TAllOf?
  {
    hide ShapeOf, FindSame, AddOrigin, Origins, Lends;
    var i := FindSame(seen, t);
    var now := Enter(seen, t);
    if i.Some? {
      var old_, new_ := seen[i.value], now[i.value];
      ReplacedLends(t, old_, shape, o);
      assert new_ in now && old_ in seen;
      forall x | x in now && Lends(x, shape, o) ensures AnyLends(seen, shape, o) || Lends(t, shape, o) {
        assert x in seen || x == new_;
      }
      forall x | x in seen && Lends(x, shape, o) ensures AnyLends(now, shape, o) {
        var k :| 0 <= k < |seen| && seen[k] == x;
        assert now[k] in now;
      }
    } else {
      LendsAppend(seen, [t], shape, o);
      assert t in [t];
    }
  }

  lemma {:induction false} GatherLends(queue: seq<InferredType>, seen: seq<InferredType>, shape: Shape, o: TypeOrigin)
    requires forall x :: x in seen ==> !x.inner.TAllOf?
    ensures AnyLends(Gather(queue, seen), shape, o) <==> AnyLends(queue, shape, o) || AnyLends(seen, shape, o)
    decreases Sizes(queue)
  {
    hide Enter, Lends, AnyLends, Size;
    if queue == [] {
      assert !AnyLends(queue, shape, o) by { NothingLends(shape, o); }
    } else {
      LendsFirst(queue, shape, o);
      if queue[0].inner.TAllOf? {
        SizesAppend(queue[1..], queue[0].inner.types);
        AllOfSize(queue[0]);
        LendsAppend(queue[1..], queue[0].inner.types, shape, o);
        AlternativesLend(queue[0], shape, o);
        GatherLends(queue[1..] + queue[0].inner.types, seen, shape, o);
      } else {
        SizePositive(queue[0]);
        EnterLends(seen, queue[0], shape, o);
        GatherLends(queue[1..], Enter(seen, queue[0]), shape, o);
      }
    }
  }

  lemma NothingLends(shape: Shape, o: TypeOrigin)
    ensures !AnyLends([], shape, o)
  {
  }

  lemma AlternativesLend(t: InferredType, shape: Shape, o: TypeOrigin)
    requires hide *; t.inner.TAllOf?
    ensures Lends(t, shape, o) <==> AnyLends(t.inner.types, shape, o)
  {
    hide ShapeOf, Origins;
  }

  /** A merged type carries, shape by shape, exactly the origins of the types it is merged from. */
  lemma MergeLends(types: seq<InferredType>, shape: Shape, o: TypeOrigin)
    requires shape != SLeaf(TUnknown)
    ensures Lends(Merge(types), shape, o) <==> AnyLends(types, shape, o)
  {
    hide Gather, Known, Lends, AnyLends;
    NothingLends(shape, o);
    GatherLends(types, [], shape, o);
    KnownLends(Gather(types, []), shape, o);
    var ts := Known(Gather(types, []));
    if ts == [] {
      UnknownLends(UNKNOWN, shape, o);
    } else if |ts| == 1 {
      LendsFirst(ts, shape, o);
      assert ts[1..] == [];
    } else {
      AlternativesLend(Plain(TAllOf(ts)), shape, o);
    }
  }

  lemma UnknownLends(t: InferredType, shape: Shape, o: TypeOrigin)
    requires t.inner.TUnknown? && shape != SLeaf(TUnknown)
    ensures !Lends(t, shape, o)
  {
    hide Origins;
  }

  lemma KnownLends(ts: seq<InferredType>, shape: Shape, o: TypeOrigin)
    requires shape != SLeaf(TUnknown)
    ensures AnyLends(Known(ts), shape, o) <==> AnyLends(ts, shape, o)
  {
    hide Known, Lends;
    forall t | t in ts && Lends(t, shape, o) ensures AnyLends(Known(ts), shape, o) {
      if t.inner.TUnknown? {
        UnknownLends(t, shape, o);
      }
      assert t in Known(ts);
    }
  }

  // ===== Tasks of the type merger: builders whose parts are pointers to other tasks.

  // ---------- builders ----------

  datatype Builder =
    | RecordB(fields: seq<Field<seq<nat>>>)
    | VariantB(cases: seq<Field<Option<seq<nat>>>>)
    | TupleB(items: seq<seq<nat>>)
    | ListB(elem: seq<nat>)
    | OptionB(some: seq<nat>)
    | ResultB(ok: Option<seq<nat>>, error: Option<seq<nat>>)

  function NoFields(fs: seq<Field<InferredType>>): (r: seq<Field<seq<nat>>>)
    ensures |r| == |fs| && forall i :: 0 <= i < |fs| ==> r[i] == Field(fs[i].name, [])
  {
    seq(|fs|, i requires 0 <= i < |fs| => Field(fs[i].name, []))
  }

  function NoCases(vs: seq<Field<Option<InferredType>>>): (r: seq<Field<Option<seq<nat>>>>)
    ensures |r| == |vs|
    ensures forall i :: 0 <= i < |vs| ==> r[i] == Field(vs[i].name, if vs[i].of.Some? then Some([]) else None)
  {
    seq(|vs|, i requires 0 <= i < |vs| => Field(vs[i].name, if vs[i].of.Some? then Some([]) else None))
  }

  /** A builder with the skeleton of a type and no pointers. */
  function NewBuilder(t: InferredType): Builder
    requires HasParts(t)
  {
    match t.inner
    case TRecord(fs) => RecordB(NoFields(fs))
    case TVariant(vs) => VariantB(NoCases(vs))
    case TTuple(ts) => TupleB(seq(|ts|, _ => []))
    case TList(_) => ListB([])
    case TOption(_) => OptionB([])
    case TResult(ok, error) => ResultB(if ok.Some? then Some([]) else None, if error.Some? then Some([]) else None)
  }

  predicate SameNames(fs: seq<Field<seq<nat>>>, gs: seq<Field<InferredType>>) {
    |fs| == |gs| && forall i | 0 <= i < |fs| :: fs[i].name == gs[i].name
  }

  predicate HasCase(cs: seq<Field<Option<seq<nat>>>>, name: string, payload: bool) {
    exists c | c in cs :: c.name == name && c.of.Some? == payload
  }

  /** Whether types like this one can share the builder: the same names in the same order, the same size, the same cases
      in any order, the same sides. */
  predicate Suits(b: Builder, t: InferredType) {
    hide *;
    match t.inner
    case TRecord(fs) => b.RecordB? && SameNames(b.fields, fs)
    case TVariant(vs) => b.VariantB? && |b.cases| == |vs| && forall v | v in vs :: HasCase(b.cases, v.name, v.of.Some?)
    case TTuple(ts) => b.TupleB? && |b.items| == |ts|
    case TList(_) => b.ListB?
    case TOption(_) => b.OptionB?
    case TResult(ok, error) => b.ResultB? && b.ok.Some? == ok.Some? && b.error.Some? == error.Some?
    case _ => false
  }

  function InsertField(fs: seq<Field<seq<nat>>>, name: string, i: nat): seq<Field<seq<nat>>> {
    if fs == [] then [Field(name, [i])]
    else if fs[0].name == name then [Field(name, fs[0].of + [i])] + fs[1..]
    else [fs[0]] + InsertField(fs[1..], name, i)
  }

  function InsertCase(cs: seq<Field<Option<seq<nat>>>>, name: string, i: nat): seq<Field<Option<seq<nat>>>> {
    if cs == [] then [Field(name, Some([i]))]
    else if cs[0].name == name then [Field(name, Some(if cs[0].of.Some? then cs[0].of.value + [i] else [i]))] + cs[1..]
    else [cs[0]] + InsertCase(cs[1..], name, i)
  }

  function InsertSide(side: Option<seq<nat>>, i: nat): Option<seq<nat>> {
    Some(if side.Some? then side.value + [i] else [i, i])
  }

  function Insert(b: Builder, place: Place, i: nat): Builder {
    hide *;
    match (b, place)
    case (RecordB(fs), AtField(name)) => RecordB(InsertField(fs, name, i))
    case (VariantB(cs), AtCase(name)) => VariantB(InsertCase(cs, name, i))
    case (TupleB(items), AtItem(k, _)) => if k < |items| then TupleB(items[k := items[k] + [i]]) else b
    case (ListB(elem), AtElem) => ListB(elem + [i])
    case (OptionB(some), AtSome) => OptionB(some + [i])
    case (ResultB(ok, error), AtOk) => ResultB(InsertSide(ok, i), error)
    case (ResultB(ok, error), AtErr) => ResultB(ok, InsertSide(error, i))
    case _ => b
  }

  /** One pointer for every part, counted from i. */
  function InsertAll(b: Builder, ps: seq<Part>, i: nat): Builder
    decreases |ps|
  {
    hide *;
    if ps == [] then b else InsertAll(Insert(b, ps[0].place, i), ps[1..], i + 1)
  }

  // ---------- skeletons of builders ----------

  ghost function BuilderBones(b: Builder): Option<Skeleton> {
    match b
    case RecordB(fs) => Some(RecordBones(NamesOf(fs)))
    case VariantB(cs) => CaseBones(cs)
    case TupleB(items) => Some(TupleBones(|items|))
    case ListB(_) => Some(ListBones)
    case OptionB(_) => Some(OptionBones)
    case ResultB(ok, error) => Some(ResultBones(ok.Some?, error.Some?))
  }

  lemma SameCaseBones<X, Y>(a: seq<Field<Option<X>>>, b: seq<Field<Option<Y>>>)
    requires |a| == |b| && forall i :: 0 <= i < |a| ==> a[i].name == b[i].name && a[i].of.Some? == b[i].of.Some?
    ensures CaseBones(a) == CaseBones(b)
  {
    assert NamesOf(a) == NamesOf(b) && KindsOf(a) == KindsOf(b);
  }

  lemma NewBones(t: InferredType)
    requires hide *; HasParts(t)
    ensures BuilderBones(NewBuilder(t)) == SkeletonOf(t)
  {
    hide CaseBones;
    match t.inner
    case TRecord(fs) => assert NamesOf(NoFields(fs)) == NamesOf(fs);
    case TVariant(vs) => SameCaseBones(NoCases(vs), vs);
    case _ =>
  }

  /** The builder has this place already. */
  predicate Keeps(b: Builder, place: Place) {
    match place
    case AtField(name) => b.RecordB? && name in NamesOf(b.fields)
    case AtCase(name) => b.VariantB? && HasCase(b.cases, name, true)
    case AtOk => b.ResultB? && b.ok.Some?
    case AtErr => b.ResultB? && b.error.Some?
    case _ => true
  }

  lemma InsertFieldNames(fs: seq<Field<seq<nat>>>, name: string, i: nat)
    requires name in NamesOf(fs)
    ensures NamesOf(InsertField(fs, name, i)) == NamesOf(fs)
  {
    if fs[0].name != name {
      assert NamesOf(fs)[1..] == NamesOf(fs[1..]);
      InsertFieldNames(fs[1..], name, i);
      var rest := InsertField(fs[1..], name, i);
      assert NamesOf([fs[0]] + rest) == [fs[0].name] + NamesOf(rest);
    }
  }

  lemma {:induction false} InsertCaseKinds(cs: seq<Field<Option<seq<nat>>>>, name: string, i: nat)
    requires hide *; HasCase(cs, name, true)
    ensures |InsertCase(cs, name, i)| == |cs|
    ensures forall k :: 0 <= k < |cs| ==> KeepsKind(cs[k], InsertCase(cs, name, i)[k], NoRepeats(NamesOf(cs)))
  {
    hide NoRepeats;
    if cs[0].name == name {
      FirstCase(cs, name);
    } else {
      assert HasCase(cs[1..], name, true);
      InsertCaseKinds(cs[1..], name, i);
      RepeatsFirst(NamesOf(cs));
      assert NamesOf(cs)[1..] == NamesOf(cs[1..]);
      var rest := InsertCase(cs[1..], name, i);
      forall k | 0 < k < |cs| ensures KeepsKind(cs[k], InsertCase(cs, name, i)[k], NoRepeats(NamesOf(cs))) {
        assert cs[k] == cs[1..][k - 1] && InsertCase(cs, name, i)[k] == rest[k - 1];
      }
    }
  }

  /** The name is the same and a payload stays; without repeated names none is added. */
  predicate KeepsKind(c: Field<Option<seq<nat>>>, now: Field<Option<seq<nat>>>, exactly: bool) {
    now.name == c.name && (c.of.Some? ==> now.of.Some?) && (exactly ==> now.of.Some? == c.of.Some?)
  }

  lemma FirstCase(cs: seq<Field<Option<seq<nat>>>>, name: string)
    requires hide *; HasCase(cs, name, true) && cs != [] && cs[0].name == name
    ensures NoRepeats(NamesOf(cs)) ==> cs[0].of.Some?
  {
    var c :| c in cs && c.name == name && c.of.Some?;
    var k :| 0 <= k < |cs| && cs[k] == c;
    assert NamesOf(cs)[0] == NamesOf(cs)[k];
  }

  lemma InsertKeeps(b: Builder, place: Place, i: nat)
    requires Keeps(b, place)
    ensures BuilderBones(Insert(b, place, i)) == BuilderBones(b)
    ensures forall q :: Keeps(b, q) ==> Keeps(Insert(b, place, i), q)
  {
    hide InsertField, InsertCase, CaseBones, HasCase;
    if b.RecordB? && place.AtField? {
      InsertFieldNames(b.fields, place.name, i);
    } else if b.VariantB? && place.AtCase? {
      InsertCaseBones(b.cases, place.name, i);
    }
  }

  lemma InsertCaseBones(cs: seq<Field<Option<seq<nat>>>>, name: string, i: nat)
    requires hide *; HasCase(cs, name, true)
    ensures CaseBones(InsertCase(cs, name, i)) == CaseBones(cs)
    ensures forall n :: HasCase(cs, n, true) ==> HasCase(InsertCase(cs, name, i), n, true)
  {
    hide InsertCase, NoRepeats, KindsOf;
    InsertCaseKinds(cs, name, i);
    var now := InsertCase(cs, name, i);
    assert NamesOf(now) == NamesOf(cs);
    if NoRepeats(NamesOf(cs)) {
      SameCaseBones(now, cs);
    }
    forall n | HasCase(cs, n, true) ensures HasCase(now, n, true) {
      var k :| 0 <= k < |cs| && cs[k].name == n && cs[k].of.Some?;
      assert now[k] in now;
    }
  }

  lemma {:induction false} InsertAllBones(b: Builder, ps: seq<Part>, i: nat)
    requires forall c :: c in ps ==> Keeps(b, c.place)
    ensures BuilderBones(InsertAll(b, ps, i)) == BuilderBones(b)
    decreases |ps|
  {
    hide Insert, Keeps, BuilderBones;
    if ps != [] {
      assert ps[0] in ps;
      InsertKeeps(b, ps[0].place, i);
      forall c | c in ps[1..] ensures Keeps(Insert(b, ps[0].place, i), c.place) {
        assert c in ps;
      }
      InsertAllBones(Insert(b, ps[0].place, i), ps[1..], i + 1);
    }
  }

  lemma CasesKept(vs: seq<Field<Option<InferredType>>>, c: Part) returns (v: Field<Option<InferredType>>)
    requires hide *; c in CaseParts(vs)
    ensures v in vs && v.of.Some? && c.place == AtCase(v.name)
  {
    hide CaseSizes, PartSizes;
    if vs[0].of.Some? && c == Part(AtCase(vs[0].name), vs[0].of.value) {
      v := vs[0];
    } else {
      v := CasesKept(vs[1..], c);
    }
  }

  lemma SuitsKeeps(b: Builder, t: InferredType, c: Part)
    requires hide *; HasParts(t) && (Suits(b, t) || b == NewBuilder(t)) && c in Parts(t)
    ensures Keeps(b, c.place)
  {
    hide CaseParts, CaseSizes, FieldParts, FieldSizes, ItemParts, PartSizes, Size, Sizes, HasParts;
    match t.inner
    case TVariant(vs) =>
      var v := CasesKept(vs, c);
      if b == NewBuilder(t) {
        var k :| 0 <= k < |vs| && vs[k] == v;
        assert NoCases(vs)[k] in NoCases(vs);
      }
    case TRecord(fs) =>
      var k :| 0 <= k < |fs| && FieldParts(fs)[k] == c;
      assert NamesOf(b.fields)[k] == fs[k].name;
    case _ =>
  }

  /** Inserting the parts of a type leaves the skeleton of its builder as it is. */
  lemma ExtendedBones(b: Builder, t: InferredType, i: nat)
    requires hide *; HasParts(t) && (Suits(b, t) || b == NewBuilder(t))
    ensures BuilderBones(InsertAll(b, Parts(t), i)) == BuilderBones(b)
  {
    hide *;
    forall c | c in Parts(t) ensures Keeps(b, c.place) {
      SuitsKeeps(b, t, c);
    }
    InsertAllBones(b, Parts(t), i);
  }

  // ---------- which types share a builder ----------

  /** Cases that are found among as many others are the same cases, if the first ones do not repeat a name. */
  lemma CasesMatch(cs: seq<Field<Option<seq<nat>>>>, vs: seq<Field<Option<InferredType>>>)
    requires |cs| == |vs| && (forall v :: v in vs ==> HasCase(cs, v.name, v.of.Some?)) && NamedApart(vs)
    ensures NamedApart(cs) && KindsOf(cs) == KindsOf(vs)
  {
    hide NamesOf, HasCase;
    var a, b := ToSet(NamesOf(vs)), ToSet(NamesOf(cs));
    NamesCount(NamesOf(vs));
    NamesCount(NamesOf(cs));
    forall n | n in a ensures n in b {
      var i :| 0 <= i < |vs| && NamesOf(vs)[i] == n;
      var k := CaseNamed(cs, vs, i);
    }
    Subsets(a, b);
    SubsetSame(a, b);
    forall i | 0 <= i < |vs| ensures CaseKind(vs[i].name, vs[i].of.Some?) in KindsOf(cs) {
      var k := CaseNamed(cs, vs, i);
    }
    forall k | 0 <= k < |cs| ensures CaseKind(cs[k].name, cs[k].of.Some?) in KindsOf(vs) {
      assert NamesOf(cs)[k] in b;
      var i :| 0 <= i < |vs| && NamesOf(vs)[i] == NamesOf(cs)[k];
      var j := CaseNamed(cs, vs, i);
      assert NamesOf(cs)[j] == NamesOf(cs)[k];
      assert j == k;
    }
  }

  lemma CaseNamed(cs: seq<Field<Option<seq<nat>>>>, vs: seq<Field<Option<InferredType>>>, i: nat) returns (k: nat)
    requires i < |vs| && forall v :: v in vs ==> HasCase(cs, v.name, v.of.Some?)
    ensures k < |cs| && cs[k].name == vs[i].name && cs[k].of.Some? == vs[i].of.Some? && NamesOf(cs)[k] == vs[i].name
  {
    hide NamesOf;
    assert vs[i] in vs;
    var c :| c in cs && c.name == vs[i].name && c.of.Some? == vs[i].of.Some?;
    k :| 0 <= k < |cs| && cs[k] == c;
  }

  lemma KindFound<X, Y>(cs: seq<Field<Option<X>>>, vs: seq<Field<Option<Y>>>, i: nat) returns (k: nat)
    requires hide *; i < |vs| && KindsOf(cs) == KindsOf(vs)
    ensures k < |cs| && cs[k].name == vs[i].name && cs[k].of.Some? == vs[i].of.Some? && NamesOf(cs)[k] == vs[i].name
  {
    hide NamesOf;
    assert CaseKind(vs[i].name, vs[i].of.Some?) in KindsOf(vs);
    k :| 0 <= k < |cs| && CaseKind(vs[i].name, vs[i].of.Some?) == CaseKind(cs[k].name, cs[k].of.Some?);
  }

  lemma SameNameSets<X, Y>(cs: seq<Field<Option<X>>>, vs: seq<Field<Option<Y>>>)
    requires hide *; KindsOf(cs) == KindsOf(vs)
    ensures ToSet(NamesOf(vs)) <= ToSet(NamesOf(cs))
  {
    hide NamesOf, KindsOf;
    forall n | n in ToSet(NamesOf(vs)) ensures n in ToSet(NamesOf(cs)) {
      var i :| 0 <= i < |vs| && NamesOf(vs)[i] == n;
      var k := KindFound(cs, vs, i);
    }
  }

  lemma CaseFound(cs: seq<Field<Option<seq<nat>>>>, vs: seq<Field<Option<InferredType>>>, v: Field<Option<InferredType>>)
    requires hide *; v in vs && KindsOf(cs) == KindsOf(vs)
    ensures HasCase(cs, v.name, v.of.Some?)
  {
    hide NamesOf, KindsOf;
    var i :| 0 <= i < |vs| && vs[i] == v;
    var k := KindFound(cs, vs, i);
    assert cs[k] in cs;
  }

  lemma CountNames<X>(cs: seq<Field<X>>)
    requires hide *; NamedApart(cs)
    ensures |ToSet(NamesOf(cs))| == |cs|
  {
    hide NamesOf, NoRepeats, ToSet;
    NamesCount(NamesOf(cs));
  }

  lemma SameCount<X, Y>(cs: seq<Field<Option<X>>>, vs: seq<Field<Option<Y>>>)
    requires hide *; NamedApart(cs) && NamedApart(vs) && KindsOf(cs) == KindsOf(vs)
    ensures |cs| == |vs|
  {
    hide *;
    CountNames(cs);
    CountNames(vs);
    SameNameSets(cs, vs);
    SameNameSets(vs, cs);
    assert ToSet(NamesOf(cs)) == ToSet(NamesOf(vs));
  }

  lemma CasesFound(cs: seq<Field<Option<seq<nat>>>>, vs: seq<Field<Option<InferredType>>>)
    requires hide *; NamedApart(cs) && NamedApart(vs) && KindsOf(cs) == KindsOf(vs)
    ensures |cs| == |vs| && forall v :: v in vs ==> HasCase(cs, v.name, v.of.Some?)
  {
    hide *;
    SameCount(cs, vs);
    forall v | v in vs ensures HasCase(cs, v.name, v.of.Some?) {
      CaseFound(cs, vs, v);
    }
  }

  /** A type with a skeleton is put into exactly the builders of its skeleton. */
  lemma SuitsExactly(b: Builder, t: InferredType)
    requires SkeletonOf(t).Some?
    ensures Suits(b, t) <==> BuilderBones(b) == SkeletonOf(t)
  {
    hide CaseBones, HasCase;
    if b.VariantB? {
      BonesOfCases(b.cases);
    }
    if t.inner.TVariant? {
      BonesOfCases(t.inner.variants);
      if b.VariantB? {
        CasesExactly(b.cases, t.inner.variants);
      }
    } else if t.inner.TRecord? && b.RecordB? {
      NamesMatch(b.fields, t.inner.fields);
    }
  }

  /** A variant that repeats a case is put together with one that does not, although they have different cases. */
  lemma RepeatedCaseShares(x: string, y: string)
    requires x != y
    ensures var once, twice := Plain(TVariant([Field(x, None), Field(y, None)])), Plain(TVariant([Field(x, None), Field(x, None)]));
            Suits(NewBuilder(once), twice) && SkeletonOf(once).Some? && SkeletonOf(twice).None?
  {
    var once, twice := [Field(x, None), Field(y, None)], [Field(x, None), Field(x, None)];
    assert NoCases(once)[0] in NoCases(once);
    assert NamesOf<Option<InferredType>>(twice)[0] == NamesOf<Option<InferredType>>(twice)[1];
    assert NamesOf<Option<InferredType>>(once) == [x, y];
  }

  lemma BonesOfCases<X>(cs: seq<Field<Option<X>>>)
    ensures CaseBones(cs).Some? ==> CaseBones(cs).value.VariantBones?
  {
  }

  lemma NamesMatch(fs: seq<Field<seq<nat>>>, gs: seq<Field<InferredType>>)
    ensures SameNames(fs, gs) <==> NamesOf(fs) == NamesOf(gs)
  {
    if NamesOf(fs) == NamesOf(gs) {
      assert forall i :: 0 <= i < |fs| ==> NamesOf(fs)[i] == NamesOf(gs)[i];
    }
    if SameNames(fs, gs) {
      assert forall i :: 0 <= i < |fs| ==> NamesOf(fs)[i] == NamesOf(gs)[i];
    }
  }

  lemma CasesExactly(cs: seq<Field<Option<seq<nat>>>>, vs: seq<Field<Option<InferredType>>>)
    requires CaseBones(vs).Some?
    ensures (|cs| == |vs| && forall v :: v in vs ==> HasCase(cs, v.name, v.of.Some?)) <==> CaseBones(cs) == CaseBones(vs)
  {
    hide HasCase, NoRepeats;
    if |cs| == |vs| && forall v :: v in vs ==> HasCase(cs, v.name, v.of.Some?) {
      CasesMatch(cs, vs);
    }
    if CaseBones(cs) == CaseBones(vs) {
      CasesFound(cs, vs);
    }
  }

  // ---------- pointers ----------

  ghost predicate FieldPoints(fs: seq<Field<seq<nat>>>, name: string, j: nat) {
    exists f :: f in fs && f.name == name && j in f.of
  }

  ghost predicate CasePoints(cs: seq<Field<Option<seq<nat>>>>, name: string, j: nat) {
    exists c :: c in cs && c.name == name && c.of.Some? && j in c.of.value
  }

  ghost predicate Points(b: Builder, place: Place, j: nat) {
    match (b, place)
    case (RecordB(fs), AtField(name)) => FieldPoints(fs, name, j)
    case (VariantB(cs), AtCase(name)) => CasePoints(cs, name, j)
    case (TupleB(items), AtItem(k, size)) => size == |items| && k < |items| && j in items[k]
    case (ListB(elem), AtElem) => j in elem
    case (OptionB(some), AtSome) => j in some
    case (ResultB(ok, _), AtOk) => ok.Some? && j in ok.value
    case (ResultB(_, error), AtErr) => error.Some? && j in error.value
    case _ => false
  }

  /** The builder has this place. */
  predicate Accepts(b: Builder, place: Place) {
    match place
    case AtField(_) => b.RecordB?
    case AtCase(_) => b.VariantB?
    case AtItem(k, size) => b.TupleB? && size == |b.items| && k < |b.items|
    case AtElem => b.ListB?
    case AtSome => b.OptionB?
    case AtOk => b.ResultB?
    case AtErr => b.ResultB?
  }

  lemma {:induction false} InsertFieldPoints(fs: seq<Field<seq<nat>>>, name: string, i: nat, n: string, j: nat)
    ensures FieldPoints(InsertField(fs, name, i), n, j) <==> FieldPoints(fs, n, j) || (n == name && j == i)
  {
    var now := InsertField(fs, name, i);
    if fs == [] {
      assert now[0] in now;
    } else if fs[0].name == name {
      assert now[0] in now && fs[0] in fs && now[1..] == fs[1..];
      assert forall f :: f in fs[1..] ==> f in now;
      assert forall f :: f in fs ==> f == fs[0] || f in fs[1..];
      assert forall f :: f in now ==> f == now[0] || f in fs[1..];
    } else {
      InsertFieldPoints(fs[1..], name, i, n, j);
      var rest := InsertField(fs[1..], name, i);
      assert forall f :: f in now <==> f == fs[0] || f in rest;
      assert forall f :: f in fs <==> f == fs[0] || f in fs[1..];
    }
  }

  lemma {:induction false} InsertCasePoints(cs: seq<Field<Option<seq<nat>>>>, name: string, i: nat, n: string, j: nat)
    ensures CasePoints(InsertCase(cs, name, i), n, j) <==> CasePoints(cs, n, j) || (n == name && j == i)
  {
    var now := InsertCase(cs, name, i);
    if cs == [] {
      assert now[0] in now;
    } else if cs[0].name == name {
      assert now[0] in now && cs[0] in cs && now[1..] == cs[1..];
      assert forall f :: f in cs[1..] ==> f in now;
      assert forall f :: f in cs ==> f == cs[0] || f in cs[1..];
      assert forall f :: f in now ==> f == now[0] || f in cs[1..];
    } else {
      InsertCasePoints(cs[1..], name, i, n, j);
      var rest := InsertCase(cs[1..], name, i);
      assert forall f :: f in now <==> f == cs[0] || f in rest;
      assert forall f :: f in cs <==> f == cs[0] || f in cs[1..];
    }
  }

  lemma {:induction false} InsertPoints(b: Builder, place: Place, i: nat, q: Place, j: nat)
    requires Accepts(b, place)
    ensures Points(Insert(b, place, i), q, j) <==> Points(b, q, j) || (q == place && j == i)
    ensures Accepts(Insert(b, place, i), q) <==> Accepts(b, q)
  {
    hide FieldPoints, CasePoints, InsertField, InsertCase;
    match place
    case AtField(name) => if q.AtField? { InsertFieldPoints(b.fields, name, i, q.name, j); }
    case AtCase(name) => if q.AtCase? { InsertCasePoints(b.cases, name, i, q.name, j); }
    case _ =>
  }

  /** Pointers to the parts, one after the other. */
  ghost predicate Numbered(ps: seq<Part>, i: nat, q: Place, j: nat) {
    i <= j < i + |ps| && ps[j - i].place == q
  }

  lemma {:induction false} InsertAllPoints(b: Builder, ps: seq<Part>, i: nat, q: Place, j: nat)
    requires forall c :: c in ps ==> Accepts(b, c.place)
    ensures Points(InsertAll(b, ps, i), q, j) <==> Points(b, q, j) || Numbered(ps, i, q, j)
    decreases |ps|
  {
    hide Insert, Points, Accepts;
    if ps != [] {
      var now := Insert(b, ps[0].place, i);
      assert ps[0] in ps;
      forall c | c in ps[1..] ensures Accepts(now, c.place) {
        assert c in ps;
        InsertPoints(b, ps[0].place, i, c.place, j);
      }
      InsertPoints(b, ps[0].place, i, q, j);
      InsertAllPoints(now, ps[1..], i + 1, q, j);
      assert j > i && j < i + |ps| ==> ps[1..][j - (i + 1)] == ps[j - i];
    }
  }

  lemma SuitsAccepts(b: Builder, t: InferredType)
    requires hide *; HasParts(t) && (Suits(b, t) || b == NewBuilder(t))
    ensures forall c :: c in Parts(t) ==> Accepts(b, c.place)
  {
    hide CaseParts, CaseSizes, FieldParts, FieldSizes, Height, HighestField, ItemParts, NoFields, PartSizes, Size,
         Sizes, HasParts, SameNames;
    match t.inner
    case TVariant(vs) => CasePlaces(vs);
    case _ =>
  }

  lemma CasePlaces(vs: seq<Field<Option<InferredType>>>)
    ensures forall c :: c in CaseParts(vs) ==> c.place.AtCase?
  {
  }

  lemma NewPointsNowhere(t: InferredType, q: Place, j: nat)
    requires hide *; HasParts(t)
    ensures !Points(NewBuilder(t), q, j)
  {
  }

  // ---------- building ----------

  function Lookup(ptrs: seq<nat>, types: map<nat, InferredType>): seq<InferredType> {
    if ptrs == [] then []
    else (if ptrs[0] in types then [types[ptrs[0]]] else []) + Lookup(ptrs[1..], types)
  }

  function Merged(ptrs: seq<nat>, types: map<nat, InferredType>): InferredType { Merge(Lookup(ptrs, types)) }

  function BuildFields(fs: seq<Field<seq<nat>>>, types: map<nat, InferredType>): (r: seq<Field<InferredType>>)
    ensures hide *; |r| == |fs| && forall i :: 0 <= i < |fs| ==> r[i] == Field(fs[i].name, Merged(fs[i].of, types))
  {
    seq(|fs|, i requires 0 <= i < |fs| => Field(fs[i].name, Merged(fs[i].of, types)))
  }

  function BuildCases(cs: seq<Field<Option<seq<nat>>>>, types: map<nat, InferredType>): (r: seq<Field<Option<InferredType>>>)
    ensures hide *; |r| == |cs|
    ensures forall i :: 0 <= i < |cs| ==>
      r[i] == Field(cs[i].name, if cs[i].of.Some? then Some(Merged(cs[i].of.value, types)) else None)
  {
    seq(|cs|, i requires 0 <= i < |cs| =>
      Field(cs[i].name, if cs[i].of.Some? then Some(Merged(cs[i].of.value, types)) else None))
  }

  function BuildItems(items: seq<seq<nat>>, types: map<nat, InferredType>): (r: seq<InferredType>)
    ensures hide *; |r| == |items| && forall i :: 0 <= i < |items| ==> r[i] == Merged(items[i], types)
  {
    seq(|items|, i requires 0 <= i < |items| => Merged(items[i], types))
  }

  function BuildSide(side: Option<seq<nat>>, types: map<nat, InferredType>): Option<InferredType> {
    hide *;
    if side.Some? then Some(Merged(side.value, types)) else None
  }

  function Build(b: Builder, types: map<nat, InferredType>): InferredType {
    Plain(match b
          case RecordB(fs) => TRecord(BuildFields(fs, types))
          case VariantB(cs) => TVariant(BuildCases(cs, types))
          case TupleB(items) => TTuple(BuildItems(items, types))
          case ListB(elem) => TList(Merged(elem, types))
          case OptionB(some) => TOption(Merged(some, types))
          case ResultB(ok, error) => TResult(BuildSide(ok, types), BuildSide(error, types)))
  }

  ghost predicate PointedLeaf(ptrs: seq<nat>, types: map<nat, InferredType>, at: Path, p: Path, leaf: Mark) {
    hide *;
    exists j :: j in ptrs && j in types && HasLeaf(types[j], at, p, leaf)
  }

  lemma {:induction false} LookupLeaves(ptrs: seq<nat>, types: map<nat, InferredType>, at: Path, p: Path, leaf: Mark)
    ensures AnyLeaf(Lookup(ptrs, types), at, p, leaf) <==> PointedLeaf(ptrs, types, at, p, leaf)
  {
    hide HasLeaf;
    LookupMembers(ptrs, types);
  }

  lemma LookupMembers(ptrs: seq<nat>, types: map<nat, InferredType>)
    ensures forall t :: t in Lookup(ptrs, types) ==> exists j :: j in ptrs && j in types && types[j] == t
    ensures forall j :: j in ptrs && j in types ==> types[j] in Lookup(ptrs, types)
  {
  }

  lemma {:induction false} MergedLeaves(ptrs: seq<nat>, types: map<nat, InferredType>, at: Path, p: Path, leaf: Mark)
    ensures HasLeaf(Merged(ptrs, types), at, p, leaf) <==> PointedLeaf(ptrs, types, at, p, leaf)
  {
    hide HasLeaf, AnyLeaf, Lookup, Merge, PointedLeaf;
    MergeLeaves(Lookup(ptrs, types), at, p, leaf);
    LookupLeaves(ptrs, types, at, p, leaf);
  }

  /** The leaves of what a builder builds are those of the types its pointers lead to, each at its place. */
  ghost predicate BuiltLeaf(b: Builder, types: map<nat, InferredType>, at: Path, p: Path, leaf: Mark) {
    hide *;
    exists place, j :: Points(b, place, j) && j in types && HasLeaf(types[j], at + Suffix(place), p, leaf)
  }

  /** A part of the built type comes from the pointers at its place. */
  lemma BuiltPart(b: Builder, types: map<nat, InferredType>, c: Part) returns (ptrs: seq<nat>)
    requires c in Parts(Build(b, types))
    ensures c.typ == Merged(ptrs, types) && forall j :: j in ptrs ==> Points(b, c.place, j)
  {
    hide Merged, Suffix, FieldSizes, Sizes, FieldParts;
    var ps := Parts(Build(b, types));
    var k :| 0 <= k < |ps| && ps[k] == c;
    match b {
      case RecordB(fs) =>
        ptrs := fs[k].of;
        assert fs[k] in fs;
      case VariantB(cs) => ptrs := BuiltCase(cs, types, c);
      case TupleB(items) => ptrs := items[k];
      case ListB(elem) => ptrs := elem;
      case OptionB(some) => ptrs := some;
      case ResultB(ok, error) => ptrs := if c.place.AtOk? then ok.value else error.value;
    }
  }

  lemma BuiltCase(cs: seq<Field<Option<seq<nat>>>>, types: map<nat, InferredType>, c: Part) returns (ptrs: seq<nat>)
    requires hide *; c in CaseParts(BuildCases(cs, types))
    ensures c.place.AtCase? && c.typ == Merged(ptrs, types) && forall j :: j in ptrs ==> CasePoints(cs, c.place.name, j)
    decreases |cs|
  {
    hide Merged, CaseSizes, PartSizes;
    var rest := BuildCases(cs, types)[1..];
    assert rest == BuildCases(cs[1..], types);
    if cs[0].of.Some? && c == Part(AtCase(cs[0].name), Merged(cs[0].of.value, types)) {
      ptrs := cs[0].of.value;
      assert cs[0] in cs;
    } else {
      ptrs := BuiltCase(cs[1..], types, c);
      forall j | j in ptrs ensures CasePoints(cs, c.place.name, j) {
        var x :| x in cs[1..] && x.name == c.place.name && x.of.Some? && j in x.of.value;
        assert x in cs;
      }
    }
  }

  /** And every pointer is behind some part. */
  lemma {:induction false} PointerBuilt(b: Builder, types: map<nat, InferredType>, place: Place,
                                        j: nat) returns (c: Part, ptrs: seq<nat>)
    requires Points(b, place, j)
    ensures c in Parts(Build(b, types)) && c.place == place && c.typ == Merged(ptrs, types) && j in ptrs
  {
    hide Merged, Suffix, BuildCases, CaseParts;
    var ps := Parts(Build(b, types));
    match b {
      case RecordB(fs) =>
        var f :| f in fs && f.name == place.name && j in f.of;
        var k :| 0 <= k < |fs| && fs[k] == f;
        ptrs := f.of;
        c := ps[k];
      case VariantB(cs) => c, ptrs := CaseBuilt(cs, types, place.name, j);
      case TupleB(items) =>
        ptrs := items[place.i];
        c := ps[place.i];
      case ListB(elem) =>
        ptrs := elem;
        c := ps[0];
      case OptionB(some) =>
        ptrs := some;
        c := ps[0];
      case ResultB(ok, error) =>
        ptrs := if place.AtOk? then ok.value else error.value;
        c := Part(place, Merged(ptrs, types));
    }
  }

  lemma {:induction false} CaseBuilt(cs: seq<Field<Option<seq<nat>>>>, types: map<nat, InferredType>, name: string, j: nat)
      returns (c: Part, ptrs: seq<nat>)
    requires CasePoints(cs, name, j)
    ensures c in CaseParts(BuildCases(cs, types)) && c.place == AtCase(name) && c.typ == Merged(ptrs, types) && j in ptrs
    decreases |cs|
  {
    hide Merged, CaseSizes, PartSizes;
    var x :| x in cs && x.name == name && x.of.Some? && j in x.of.value;
    var rest := BuildCases(cs, types)[1..];
    assert rest == BuildCases(cs[1..], types);
    if x == cs[0] {
      ptrs := x.of.value;
      c := Part(AtCase(name), Merged(ptrs, types));
    } else {
      assert x in cs[1..];
      c, ptrs := CaseBuilt(cs[1..], types, name, j);
    }
  }

  lemma BuildHasParts(b: Builder, types: map<nat, InferredType>)
    ensures HasParts(Build(b, types))
  {
  }

  lemma BuildBones(b: Builder, types: map<nat, InferredType>)
    ensures SkeletonOf(Build(b, types)) == BuilderBones(b)
  {
    hide Merged, CaseBones;
    var t := Build(b, types);
    match b
    case RecordB(fs) => assert NamesOf(t.inner.fields) == NamesOf(fs);
    case VariantB(cs) => SameCaseBones(t.inner.variants, cs);
    case _ =>
  }

  lemma {:induction false} BuildLeaves(b: Builder, types: map<nat, InferredType>, at: Path, p: Path, leaf: Mark)
    ensures HasLeaf(Build(b, types), at, p, leaf) <==> BuiltLeaf(b, types, at, p, leaf) || Stands(BuilderBones(b), at, p, leaf)
  {
    hide Parts, Build, Points, Suffix, Merged, Size, SkeletonOf, BuilderBones, Stands;
    BuildHasParts(b, types);
    BuildBones(b, types);
    var t := Build(b, types);
    if HasLeaf(t, at, p, leaf) && !Stands(SkeletonOf(t), at, p, leaf) {
      var c :| c in Parts(t) && HasLeaf(c.typ, at + Suffix(c.place), p, leaf);
      var ptrs := BuiltPart(b, types, c);
      MergedLeaves(ptrs, types, at + Suffix(c.place), p, leaf);
      var j :| j in ptrs && j in types && HasLeaf(types[j], at + Suffix(c.place), p, leaf);
      assert Points(b, c.place, j);
    }
    if BuiltLeaf(b, types, at, p, leaf) {
      var place, j :| Points(b, place, j) && j in types && HasLeaf(types[j], at + Suffix(place), p, leaf);
      var c, ptrs := PointerBuilt(b, types, place, j);
      assert PointedLeaf(ptrs, types, at + Suffix(place), p, leaf);
      MergedLeaves(ptrs, types, at + Suffix(place), p, leaf);
    }
  }
}
