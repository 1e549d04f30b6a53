/** Unification of inferred types. */
module Unification {
  import opened Syntax
  import opened Inferred

  datatype UnifyError = TypeMismatch(left: InferredType, right: InferredType) | ConflictingTypes(types: seq<InferredType>)

  type Unified = Result<InferredType, UnifyError>

  // ---------- validation ----------

  /** Fails on what is still unknown or ambiguous; of a result only one side has to be known. */
  function Validate(t: InferredType): (r: Unified)
    ensures hide *; r.Ok? ==> !r.value.inner.TAllOf?
    decreases t
  {
    match t.inner
    case TList(e) => var v := Validate(e); if v.Err? then v else Ok(Plain(TList(v.value)))
    case TTuple(ts) => var vs := ValidateAll(ts); if vs.Err? then Err(vs.error) else Ok(Plain(TTuple(vs.value)))
    case TRecord(fs) => if FieldsValid(fs) then Ok(Plain(TRecord(fs))) else Err(ConflictingTypes([t]))
    case TOption(s) => var v := Validate(s); if v.Err? then v else Ok(Plain(TOption(v.value)))
    case TResult(ok, error) =>
      if ok.Some? && error.Some? then
        var v := Validate(ok.value);
        if v.Err? && Validate(error.value).Err? then v else Ok(t)
      else if ok.Some? then var v := Validate(ok.value); if v.Err? then v else Ok(t)
      else if error.Some? then var v := Validate(error.value); if v.Err? then v else Ok(t)
      else Ok(t)
    case TVariant(vs) => if CasesValid(vs) then Ok(t) else Err(ConflictingTypes([t]))
    case TRange(from, to) =>
      var f := Validate(from);
      if f.Err? then f
      else if to.None? then Ok(Plain(TRange(f.value, None)))
      else var u := Validate(to.value); if u.Err? then u else Ok(Plain(TRange(f.value, Some(u.value))))
    case TAllOf(ts) => Err(ConflictingTypes(ts))
    case TUnknown => Err(ConflictingTypes([t]))
    case TSequence(ts) => var vs := ValidateAll(ts); if vs.Err? then Err(vs.error) else Ok(t)
    case TInstance(_) => Ok(t)
    case TResource(_, _, _, _) => Ok(t)
    case _ => Ok(Plain(t.inner))
  }

  function ValidateAll(ts: seq<InferredType>): (r: Result<seq<InferredType>, UnifyError>)
    ensures hide *; r.Ok? ==> |r.value| == |ts|
    decreases ts
  {
    if ts == [] then Ok([]) else
    var v, vs := Validate(ts[0]), ValidateAll(ts[1..]);
    if v.Err? then Err(v.error) else if vs.Err? then vs else Ok([v.value] + vs.value)
  }

  predicate FieldsValid(fs: seq<Field<InferredType>>)
    decreases fs
  {
    hide *;
    fs == [] || (Validate(fs[0].of).Ok? && FieldsValid(fs[1..]))
  }

  predicate CasesValid(vs: seq<Field<Option<InferredType>>>)
    decreases vs
  {
    hide *;
    vs == [] || ((vs[0].of.Some? ==> Validate(vs[0].of.value).Ok?) && CasesValid(vs[1..]))
  }

  // ---------- unification ----------

  function FindField(fs: seq<Field<InferredType>>, name: string): (r: Option<InferredType>)
    ensures hide *; r.Some? ==> Height(r.value) <= HighestField(fs)
    ensures r.None? ==> forall f :: f in fs ==> f.name != name
  {
    if fs == [] then None else if fs[0].name == name then Some(fs[0].of) else FindField(fs[1..], name)
  }

  function FindCase(vs: seq<Field<Option<InferredType>>>, name: string): (r: Option<Option<InferredType>>)
    ensures hide *; r.Some? && r.value.Some? ==> Height(r.value.value) <= HighestCase(vs)
  {
    if vs == [] then None else if vs[0].name == name then Some(vs[0].of) else FindCase(vs[1..], name)
  }

  function OnlyIn(bs: seq<Field<InferredType>>, fs: seq<Field<InferredType>>): (r: seq<Field<InferredType>>)
    ensures hide *; forall f :: f in r ==> f in bs
    ensures HighestField(r) <= HighestField(bs)
  {
    if bs == [] then [] else
    if FindField(fs, bs[0].name).None? then [bs[0]] + OnlyIn(bs[1..], fs) else OnlyIn(bs[1..], fs)
  }

  predicate AllIn(a: seq<string>, b: seq<string>) { forall x | x in a :: x in b }

  function UnifyFlags(a: seq<string>, b: seq<string>): Option<seq<string>> {
    if |a| >= |b| then (if AllIn(b, a) then Some(a) else None)
    else if AllIn(a, b) then Some(b) else None
  }

  /** Numbers give way to a number that is not a default; otherwise the two have to be equal. */
  function UnifyRest(l: InferredType, r: InferredType): (u: Unified)
    ensures hide *; u.Ok? ==> u.value == l || u.value == r
  {
    if IsNumber(l) && IsNumber(r) && l.origin.IsDefault() != r.origin.IsDefault() then
      Ok(if l.origin.IsDefault() then r else l)
    else if Same(l, r) then Ok(l)
    else Err(TypeMismatch(r, l))
  }

  function TryUnify(t: InferredType): (r: Unified)
    ensures hide *; r.Ok? ==> !r.value.inner.TAllOf? && Height(r.value) <= Height(t)
    decreases Height(t), 0, 0
  {
    match t.inner
    case TAllOf(ts) => UnifyFrom(UNKNOWN, Flatten(ts))
    case TOption(s) => var u := TryUnify(s); if u.Err? then u else Ok(InferredType(TOption(u.value), t.origin))
    case TResult(ok, error) =>
      var o, e := TryUnifyMaybe(ok), TryUnifyMaybe(error);
      if o.Err? then Err(o.error) else if e.Err? then Err(e.error) else Ok(InferredType(TResult(o.value, e.value), t.origin))
    case TRecord(fs) =>
      var us := TryUnifyFields(fs);
      if us.Err? then Err(us.error) else Ok(InferredType(TRecord(us.value), t.origin))
    case TTuple(ts) => var us := TryUnifyAll(ts); if us.Err? then Err(us.error) else Ok(Plain(TTuple(us.value)))
    case TList(e) => var u := TryUnify(e); if u.Err? then u else Ok(Plain(TList(u.value)))
    case TRange(from, to) =>
      var f := TryUnify(from);
      if f.Err? then f else
      var u := TryUnifyMaybe(to);
      if u.Err? then Err(u.error) else Ok(Plain(TRange(f.value, u.value)))
    case TFlags(_) => Ok(Plain(t.inner))
    case TEnum(_) => Ok(Plain(t.inner))
    case TVariant(vs) => var us := TryUnifyCases(vs); if us.Err? then Err(us.error) else Ok(Plain(TVariant(us.value)))
    case TResource(_, _, _, _) => Ok(Plain(t.inner))
    case _ => Ok(t)
  }

  function HeightMaybe(t: Option<InferredType>): nat { hide *; if t.Some? then Height(t.value) else 0 }

  function TryUnifyMaybe(t: Option<InferredType>): (r: Result<Option<InferredType>, UnifyError>)
    ensures hide *; r.Ok? ==> r.value.Some? == t.Some? && HeightMaybe(r.value) <= HeightMaybe(t)
    decreases HeightMaybe(t), 1, 0
  {
    if t.None? then Ok(None) else
    var u := TryUnify(t.value);
    if u.Err? then Err(u.error) else Ok(Some(u.value))
  }

  function TryUnifyAll(ts: seq<InferredType>): (r: Result<seq<InferredType>, UnifyError>)
    ensures hide *; r.Ok? ==> |r.value| == |ts| && Highest(r.value) <= Highest(ts)
    decreases Highest(ts), 1, |ts|
  {
    if ts == [] then Ok([]) else
    var u := TryUnify(ts[0]);
    if u.Err? then Err(u.error) else
    var us := TryUnifyAll(ts[1..]);
    if us.Err? then us else
    assert ([u.value] + us.value)[1..] == us.value;
    Ok([u.value] + us.value)
  }

  function TryUnifyFields(fs: seq<Field<InferredType>>): (r: Result<seq<Field<InferredType>>, UnifyError>)
    ensures hide *; r.Ok? ==> |r.value| == |fs| && HighestField(r.value) <= HighestField(fs)
    decreases HighestField(fs), 1, |fs|
  {
    if fs == [] then Ok([]) else
    var u := TryUnify(fs[0].of);
    if u.Err? then Err(u.error) else
    var us := TryUnifyFields(fs[1..]);
    if us.Err? then us else
    assert ([Field(fs[0].name, u.value)] + us.value)[1..] == us.value;
    Ok([Field(fs[0].name, u.value)] + us.value)
  }

  function TryUnifyCases(vs: seq<Field<Option<InferredType>>>): (r: Result<seq<Field<Option<InferredType>>>, UnifyError>)
    ensures hide *; r.Ok? ==> |r.value| == |vs| && HighestCase(r.value) <= HighestCase(vs)
    decreases HighestCase(vs), 2, |vs|
  {
    if vs == [] then Ok([]) else
    var u := TryUnifyMaybe(vs[0].of);
    if u.Err? then Err(u.error) else
    var us := TryUnifyCases(vs[1..]);
    if us.Err? then us else
    var first := Field(vs[0].name, u.value);
    assert ([first] + us.value)[1..] == us.value;
    Ok([first] + us.value)
  }

  /** One alternative after the other; an alternative that does not unify in itself is taken as it is. */
  function UnifyFrom(acc: InferredType, ts: seq<InferredType>): (r: Unified)
    requires hide TryUnify, UnifyBoth, Height; !acc.inner.TAllOf? && forall t :: t in ts ==> !t.inner.TAllOf?
    ensures r.Ok? ==> !r.value.inner.TAllOf? && Height(r.value) <= Height(acc) + Total(ts)
    decreases Height(acc) + Total(ts), 2, |ts|
  {
    if ts == [] then Ok(acc) else
    assert ts[0] in ts;
    var u := TryUnify(ts[0]);
    var both := UnifyBoth(acc, if u.Ok? then u.value else ts[0]);
    if both.Err? then both else UnifyFrom(both.value, ts[1..])
  }

  /** Two types. Neither of them is a set of alternatives once it is unified in itself. */
  function UnifyBoth(l: InferredType, r: InferredType): (u: Unified)
    ensures hide *; u.Ok? ==> Height(u.value) <= Height(l) + Height(r)
    ensures u.Ok? && !l.inner.TAllOf? && !r.inner.TAllOf? ==> !u.value.inner.TAllOf?
    decreases Height(l) + Height(r), 1, 0
  {
    if r.inner.TUnknown? then Ok(l)
    else if l.inner.TUnknown? then Ok(r)
    else if Same(l, r) then Ok(l)
    else
      var a := TryUnify(l);
      if a.Err? then a else
      var b := TryUnify(r);
      if b.Err? then b else
      UnifyParts(a.value, b.value)
  }

  function UnifyParts(l: InferredType, r: InferredType): (u: Unified)
    requires hide UnifyRecords, UnifyRanges, UnifyOther; !l.inner.TAllOf? && !r.inner.TAllOf?
    ensures u.Ok? ==> Height(u.value) <= Height(l) + Height(r) && !u.value.inner.TAllOf?
    decreases Height(l) + Height(r), 0, 2
  {
    if l.inner.TRecord? && r.inner.TRecord? then UnifyRecords(l.inner.fields, r.inner.fields)
    else if l.inner.TTuple? && r.inner.TTuple? then
      if |l.inner.items| != |r.inner.items| then Err(ConflictingTypes([l, r])) else
      var us := UnifyPairs(l.inner.items, r.inner.items);
      if us.Err? then Err(us.error) else Ok(Plain(TTuple(us.value)))
    else if l.inner.TList? && r.inner.TList? then
      var u := UnifyBoth(l.inner.elem, r.inner.elem);
      if u.Err? then u else Ok(Plain(TList(u.value)))
    else if l.inner.TOption? && r.inner.TOption? then
      var u := UnifyBoth(l.inner.some, r.inner.some);
      if u.Err? then u else Ok(Plain(TOption(u.value)))
    else if l.inner.TVariant? && r.inner.TVariant? then
      var us := UnifyCases(l.inner.variants, r.inner.variants);
      if us.Err? then Err(us.error) else Ok(Plain(TVariant(us.value)))
    else UnifyMoreParts(l, r)
  }

  function UnifyMoreParts(l: InferredType, r: InferredType): (u: Unified)
    requires hide UnifyRanges; !l.inner.TAllOf? && !r.inner.TAllOf?
    ensures u.Ok? ==> Height(u.value) <= Height(l) + Height(r) && !u.value.inner.TAllOf?
    decreases Height(l) + Height(r), 0, 1
  {
    if l.inner.TFlags? && r.inner.TFlags? then
      var fs := UnifyFlags(l.inner.flags, r.inner.flags);
      if fs.Some? then Ok(Plain(TFlags(fs.value))) else Err(ConflictingTypes([l, r]))
    else if l.inner.TRange? && r.inner.TRange? then UnifyRanges(l.inner.from, l.inner.to, r.inner.from, r.inner.to)
    else if l.inner.TResult? && r.inner.TResult? then UnifyResults(l.inner.ok, l.inner.error, r.inner.ok, r.inner.error)
    else if (l.inner.TEnum? && r.inner.TEnum?) || (l.inner.TResource? && r.inner.TResource?) then
      if l.inner != r.inner then Err(ConflictingTypes([l, r])) else Ok(Plain(l.inner))
    else UnifyOther(l, r)
  }

  /** Types of different kinds, and types without parts. */
  function UnifyOther(l: InferredType, r: InferredType): (u: Unified)
    requires hide TryUnify, UnifyBoth, Validate, Same, UnifyOption, UnifyRest; !l.inner.TAllOf? && !r.inner.TAllOf?
    ensures u.Ok? ==> Height(u.value) <= Height(l) + Height(r) && !u.value.inner.TAllOf?
    decreases Height(l) + Height(r), 0, 0
  {
    if l.inner.TOption? then UnifyOption(l.inner.some, r)
    else if r.inner.TOption? then UnifyOption(r.inner.some, l)
    else UnifyRest(l, r)
  }

  /** A part that only one side has is taken as it is. */
  function UnifyMaybe(a: Option<InferredType>, b: Option<InferredType>): (r: Result<Option<InferredType>, UnifyError>)
    ensures hide *; r.Ok? ==> HeightMaybe(r.value) <= HeightMaybe(a) + HeightMaybe(b)
    decreases HeightMaybe(a) + HeightMaybe(b), 2, 0
  {
    if a.None? then Ok(b)
    else if b.None? then Ok(a)
    else var u := UnifyBoth(a.value, b.value); if u.Err? then Err(u.error) else Ok(Some(u.value))
  }

  function UnifyRanges(from: InferredType, to: Option<InferredType>, from2: InferredType, to2: Option<InferredType>): (u: Unified)
    ensures hide *;
            u.Ok? ==> Height(u.value) <= 1 + Max(Height(from), HeightMaybe(to)) + Max(Height(from2), HeightMaybe(to2))
    ensures u.Ok? ==> u.value.inner.TRange?
    decreases Max(Height(from), HeightMaybe(to)) + Max(Height(from2), HeightMaybe(to2)), 3, 0
  {
    var f := UnifyBoth(from, from2);
    if f.Err? then f else
    var u := UnifyMaybe(to, to2);
    if u.Err? then Err(u.error) else Ok(Plain(TRange(f.value, u.value)))
  }

  function UnifyResults(ok: Option<InferredType>, error: Option<InferredType>, ok2: Option<InferredType>, error2: Option<InferredType>)
      : (u: Unified)
    ensures hide *;
            u.Ok? ==> Height(u.value) <= 1 + Max(HeightMaybe(ok), HeightMaybe(error)) + Max(HeightMaybe(ok2), HeightMaybe(error2))
    ensures u.Ok? ==> u.value.inner.TResult?
    decreases Max(HeightMaybe(ok), HeightMaybe(error)) + Max(HeightMaybe(ok2), HeightMaybe(error2)), 3, 0
  {
    var o, e := UnifyMaybe(ok, ok2), UnifyMaybe(error, error2);
    if o.Err? then Err(o.error) else if e.Err? then Err(e.error) else Ok(Plain(TResult(o.value, e.value)))
  }

  function UnifyRecords(fs: seq<Field<InferredType>>, gs: seq<Field<InferredType>>): (u: Unified)
    ensures hide *; u.Ok? ==> Height(u.value) <= 1 + HighestField(fs) + HighestField(gs) && u.value.inner.TRecord?
    decreases HighestField(fs) + HighestField(gs), 3, 0
  {
    var us := UnifyFields(fs, gs);
    if us.Err? then Err(us.error) else
    Ok(Plain(TRecord(Joined(us.value, OnlyIn(gs, fs)))))
  }

  /** An option and something else: the two are first made definite. */
  function UnifyOption(a: InferredType, other: InferredType): (u: Unified)
    requires hide TryUnify, UnifyBoth, Validate; !other.inner.TAllOf?
    ensures u.Ok? ==> Height(u.value) <= 1 + Height(a) + Height(other) && u.value.inner.TOption?
    decreases Height(a) + Height(other), 2, 0
  {
    var x := TryUnify(a);
    var ux := if x.Err? then x else Validate(x.value);
    if ux.Err? then ux else
    var y := TryUnify(other);
    var uy := if y.Err? then y else Validate(y.value);
    if uy.Err? then uy else
    ValidHeight(x.value);
    ValidHeight(y.value);
    var both := UnifyBoth(ux.value, uy.value);
    if both.Err? then both else Ok(Plain(TOption(both.value)))
  }

  function UnifyPairs(ts: seq<InferredType>, vs: seq<InferredType>): (r: Result<seq<InferredType>, UnifyError>)
    requires hide UnifyBoth, UnifyPairs, Height; |ts| == |vs|
    ensures r.Ok? ==> |r.value| == |ts| && Highest(r.value) <= Highest(ts) + Highest(vs)
    decreases Highest(ts) + Highest(vs), 2, |ts|
  {
    if ts == [] then Ok([]) else
    var u := UnifyBoth(ts[0], vs[0]);
    if u.Err? then Err(u.error) else
    var us := UnifyPairs(ts[1..], vs[1..]);
    if us.Err? then us else
    assert ([u.value] + us.value)[1..] == us.value;
    Ok([u.value] + us.value)
  }

  /** Every field of the first record, unified with the field of the second one where there is one. */
  function UnifyFields(fs: seq<Field<InferredType>>, gs: seq<Field<InferredType>>): (r: Result<seq<Field<InferredType>>, UnifyError>)
    ensures hide *; r.Ok? ==> |r.value| == |fs| && HighestField(r.value) <= HighestField(fs) + HighestField(gs)
    decreases HighestField(fs) + HighestField(gs), 2, |fs|
  {
    if fs == [] then Ok([]) else
    var g := FindField(gs, fs[0].name);
    var u := if g.Some? then UnifyBoth(fs[0].of, g.value) else Ok(fs[0].of);
    if u.Err? then Err(u.error) else
    var us := UnifyFields(fs[1..], gs);
    if us.Err? then us else
    assert ([Field(fs[0].name, u.value)] + us.value)[1..] == us.value;
    Ok([Field(fs[0].name, u.value)] + us.value)
  }

  /** The cases both variants have; a payload stays only if both have one. */
  function UnifyCases(vs: seq<Field<Option<InferredType>>>, ws: seq<Field<Option<InferredType>>>)
      : (r: Result<seq<Field<Option<InferredType>>>, UnifyError>)
    ensures hide *; r.Ok? ==> HighestCase(r.value) <= HighestCase(vs) + HighestCase(ws)
    decreases HighestCase(vs) + HighestCase(ws), 2, |vs|
  {
    if vs == [] then Ok([]) else
    var w := FindCase(ws, vs[0].name);
    if w.None? then UnifyCases(vs[1..], ws) else
    var both := vs[0].of.Some? && w.value.Some?;
    var u := if both then UnifyBoth(vs[0].of.value, w.value.value) else Ok(UNKNOWN);
    if u.Err? then Err(u.error) else
    var us := UnifyCases(vs[1..], ws);
    if us.Err? then us else
    var first := Field(vs[0].name, if both then Some(u.value) else None);
    assert ([first] + us.value)[1..] == us.value;
    Ok([first] + us.value)
  }

  function Joined(a: seq<Field<InferredType>>, b: seq<Field<InferredType>>): (r: seq<Field<InferredType>>)
    ensures hide *; r == a + b && HighestField(r) <= Max(HighestField(a), HighestField(b))
  {
    BelowHighestField(a + b, Max(HighestField(a), HighestField(b)));
    a + b
  }

  // ---------- the loops ----------

  method UnifyAllTypes(types: seq<InferredType>) returns (r: Unified)
    requires hide Height, Total, TryUnify, UnifyBoth; forall t :: t in types ==> !t.inner.TAllOf?
    ensures r == UnifyFrom(UNKNOWN, types)
  {
    hide TryUnify, UnifyBoth, Height;
    var finalUnified := UNKNOWN;
    for i := 0 to |types|
      invariant !finalUnified.inner.TAllOf? && forall t :: t in types[i..] ==> !t.inner.TAllOf?
      invariant UnifyFrom(finalUnified, types[i..]) == UnifyFrom(UNKNOWN, types)
    {
      assert types[i..][0] == types[i] && types[i..][1..] == types[i + 1..];
      var next := TryUnify(types[i]);
      var both := UnifyBoth(finalUnified, if next.Ok? then next.value else types[i]);
      if both.Err? {
        return both;
      }
      finalUnified := both.value;
    }
    return Ok(finalUnified);
  }

  function Onto(done: seq<Field<InferredType>>, rest: Result<seq<Field<InferredType>>, UnifyError>)
      : Result<seq<Field<InferredType>>, UnifyError> {
    if rest.Err? then rest else Ok(done + rest.value)
  }

  lemma OntoOne(done: seq<Field<InferredType>>, fs: seq<Field<InferredType>>, gs: seq<Field<InferredType>>)
    requires hide *; fs != []
    ensures var g := FindField(gs, fs[0].name);
            var u := if g.Some? then UnifyBoth(fs[0].of, g.value) else Ok(fs[0].of);
            Onto(done, UnifyFields(fs, gs))
            == if u.Err? then Err(u.error) else Onto(done + [Field(fs[0].name, u.value)], UnifyFields(fs[1..], gs))
  {
    hide UnifyBoth, Height, HighestField;
    var g := FindField(gs, fs[0].name);
    var u := if g.Some? then UnifyBoth(fs[0].of, g.value) else Ok(fs[0].of);
    if u.Ok? && UnifyFields(fs[1..], gs).Ok? {
      var v, us := Field(fs[0].name, u.value), UnifyFields(fs[1..], gs).value;
      assert done + ([v] + us) == (done + [v]) + us;
    }
  }

  lemma OntoAll(fs: seq<Field<InferredType>>, gs: seq<Field<InferredType>>)
    ensures Onto([], UnifyFields(fs, gs)) == UnifyFields(fs, gs)
    ensures UnifyFields([], gs) == Ok([])
  {
    hide UnifyBoth, Height, HighestField;
    if UnifyFields(fs, gs).Ok? {
      assert [] + UnifyFields(fs, gs).value == UnifyFields(fs, gs).value;
    }
  }

  /** Fields of the first record, then those only the second one has. */
  method UnifyRecordFields(fs: seq<Field<InferredType>>, gs: seq<Field<InferredType>>)
      returns (r: Result<seq<Field<InferredType>>, UnifyError>)
    ensures hide *;
            r == if UnifyFields(fs, gs).Err? then UnifyFields(fs, gs) else Ok(UnifyFields(fs, gs).value + OnlyIn(gs, fs))
  {
    hide UnifyBoth, UnifyFields, Height, HighestField;
    var fields: seq<Field<InferredType>> := [];
    OntoAll(fs, gs);
    for i := 0 to |fs|
      invariant UnifyFields(fs, gs) == Onto(fields, UnifyFields(fs[i..], gs))
    {
      assert fs[i..][0] == fs[i] && fs[i..][1..] == fs[i + 1..];
      OntoOne(fields, fs[i..], gs);
      var g := FindField(gs, fs[i].name);
      var u := if g.Some? then UnifyBoth(fs[i].of, g.value) else Ok(fs[i].of);
      if u.Err? {
        return Err(u.error);
      }
      fields := fields + [Field(fs[i].name, u.value)];
    }
    assert fs[|fs|..] == [] && fields + [] == fields;
    fields := AddOnlyIn(fields, gs, fs);
    return Ok(fields);
  }

  method AddOnlyIn(start: seq<Field<InferredType>>, gs: seq<Field<InferredType>>, fs: seq<Field<InferredType>>)
      returns (fields: seq<Field<InferredType>>)
    ensures fields == start + OnlyIn(gs, fs)
  {
    hide Height, HighestField, FindField;
    fields := start;
    for i := 0 to |gs|
      invariant fields + OnlyIn(gs[i..], fs) == start + OnlyIn(gs, fs)
    {
      assert gs[i..][0] == gs[i] && gs[i..][1..] == gs[i + 1..];
      if FindField(fs, gs[i].name).None? {
        fields := fields + [gs[i]];
      }
    }
    assert gs[|gs|..] == [] && fields + [] == fields;
  }

  function Unify(t: InferredType): Unified {
    hide *;
    var u := TryUnify(t);
    if u.Err? then u else Validate(u.value)
  }

  lemma {:induction false} ValidHeight(t: InferredType)
    requires hide *; Validate(t).Ok?
    ensures Height(Validate(t).value) == Height(t)
    decreases t
  {
    hide CasesValid, FieldsValid, Max;
    match t.inner
    case TList(e) => ValidHeight(e);
    case TTuple(ts) => ValidHeights(ts);
    case TOption(s) => ValidHeight(s);
    case TRange(from, to) =>
      ValidHeight(from);
      if to.Some? {
        ValidHeight(to.value);
      }
    case _ =>
  }

  lemma {:induction false} ValidHeights(ts: seq<InferredType>)
    requires hide *; ValidateAll(ts).Ok?
    ensures Highest(ValidateAll(ts).value) == Highest(ts)
    decreases ts
  {
    hide Height, Validate;
    if ts != [] {
      ValidHeight(ts[0]);
      ValidHeights(ts[1..]);
      var v, vs := Validate(ts[0]).value, ValidateAll(ts[1..]).value;
      assert ([v] + vs)[1..] == vs;
    }
  }
}
