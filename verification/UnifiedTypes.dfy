/** What unification guarantees: resolved results that stay as they are, of bounded size, and no preference for one side. */
module UnifiedTypes {
  import opened Syntax
  import opened Inferred
  import opened Unification

  // ===== What unification guarantees: resolved results that stay as they are, and no preference for one side.

  // ---------- resolved types ----------

  /** Nothing unknown or ambiguous; of a result only one side has to be resolved. */
  predicate Resolved(t: InferredType)
    decreases t
  {
    hide *;
    match t.inner
    case TList(e) => Resolved(e)
    case TTuple(ts) => AllResolved(ts)
    case TRecord(fs) => FieldsResolved(fs)
    case TOption(s) => Resolved(s)
    case TResult(ok, error) =>
      (ok.None? && error.None?) || (ok.Some? && Resolved(ok.value)) || (error.Some? && Resolved(error.value))
    case TVariant(vs) => CasesResolved(vs)
    case TRange(from, to) => Resolved(from) && (to.Some? ==> Resolved(to.value))
    case TAllOf(_) => false
    case TUnknown => false
    case TSequence(ts) => AllResolved(ts)
    case _ => true
  }

  predicate AllResolved(ts: seq<InferredType>)
    decreases ts
  {
    hide *;
    ts == [] || (Resolved(ts[0]) && AllResolved(ts[1..]))
  }

  predicate FieldsResolved(fs: seq<Field<InferredType>>)
    decreases fs
  {
    hide *;
    fs == [] || (Resolved(fs[0].of) && FieldsResolved(fs[1..]))
  }

  predicate CasesResolved(vs: seq<Field<Option<InferredType>>>)
    decreases vs
  {
    hide *;
    vs == [] || ((vs[0].of.Some? ==> Resolved(vs[0].of.value)) && CasesResolved(vs[1..]))
  }

  /** Validation succeeds exactly on resolved types and changes nothing but origins. */
  lemma {:induction false} ValidExactly(t: InferredType)
    ensures hide *; Validate(t).Ok? <==> Resolved(t)
    ensures Validate(t).Ok? ==> Same(Validate(t).value, t) && Resolved(Validate(t).value)
    decreases t
  {
    hide ValidateAll, FieldsValid, CasesValid, AllResolved, FieldsResolved, CasesResolved, ShapesOf, FieldShapes,
         CaseShapes;
    match t.inner
    case TList(e) => ValidExactly(e);
    case TTuple(ts) => AllValidExactly(ts);
    case TRecord(fs) => FieldsValidExactly(fs);
    case TOption(s) => ValidExactly(s);
    case TResult(ok, error) =>
      if ok.Some? {
        ValidExactly(ok.value);
      }
      if error.Some? {
        ValidExactly(error.value);
      }
    case TVariant(vs) => CasesValidExactly(vs);
    case TRange(from, to) =>
      ValidExactly(from);
      if to.Some? {
        ValidExactly(to.value);
      }
    case TSequence(ts) => AllValidExactly(ts);
    case _ =>
  }

  lemma {:induction false} AllValidExactly(ts: seq<InferredType>)
    ensures hide *; ValidateAll(ts).Ok? <==> AllResolved(ts)
    ensures ValidateAll(ts).Ok? ==> ShapesOf(ValidateAll(ts).value) == ShapesOf(ts) && AllResolved(ValidateAll(ts).value)
    decreases ts
  {
    hide Validate, ShapeOf, Resolved;
    if ts != [] {
      ValidExactly(ts[0]);
      AllValidExactly(ts[1..]);
      if ValidateAll(ts).Ok? {
        var v, vs := Validate(ts[0]).value, ValidateAll(ts[1..]).value;
        assert ([v] + vs)[1..] == vs;
      }
    }
  }

  lemma {:induction false} FieldsValidExactly(fs: seq<Field<InferredType>>)
    ensures FieldsValid(fs) <==> FieldsResolved(fs)
    decreases fs
  {
    hide Validate, ShapeOf, Resolved;
    if fs != [] {
      ValidExactly(fs[0].of);
      FieldsValidExactly(fs[1..]);
    }
  }

  lemma {:induction false} CasesValidExactly(vs: seq<Field<Option<InferredType>>>)
    ensures CasesValid(vs) <==> CasesResolved(vs)
    decreases vs
  {
    hide Validate, ShapeOf, Resolved;
    if vs != [] {
      if vs[0].of.Some? {
        ValidExactly(vs[0].of.value);
      }
      CasesValidExactly(vs[1..]);
    }
  }

  // ---------- types without alternatives ----------

  /** No set of alternatives anywhere (sequences are not looked into). */
  predicate Definite(t: InferredType)
    decreases t
  {
    hide *;
    match t.inner
    case TList(e) => Definite(e)
    case TTuple(ts) => AllDefinite(ts)
    case TRecord(fs) => FieldsDefinite(fs)
    case TOption(s) => Definite(s)
    case TResult(ok, error) => (ok.Some? ==> Definite(ok.value)) && (error.Some? ==> Definite(error.value))
    case TVariant(vs) => CasesDefinite(vs)
    case TRange(from, to) => Definite(from) && (to.Some? ==> Definite(to.value))
    case TAllOf(_) => false
    case _ => true
  }

  predicate AllDefinite(ts: seq<InferredType>)
    decreases ts
  {
    hide *;
    ts == [] || (Definite(ts[0]) && AllDefinite(ts[1..]))
  }

  predicate FieldsDefinite(fs: seq<Field<InferredType>>)
    decreases fs
  {
    hide *;
    fs == [] || (Definite(fs[0].of) && FieldsDefinite(fs[1..]))
  }

  predicate CasesDefinite(vs: seq<Field<Option<InferredType>>>)
    decreases vs
  {
    hide *;
    vs == [] || ((vs[0].of.Some? ==> Definite(vs[0].of.value)) && CasesDefinite(vs[1..]))
  }

  /** Such a type unifies to itself, up to origins. */
  lemma {:induction false} DefiniteStays(t: InferredType)
    requires hide *; Definite(t)
    ensures TryUnify(t).Ok? && Same(TryUnify(t).value, t) && (Resolved(t) ==> Resolved(TryUnify(t).value))
    decreases t
  {
    hide TryUnifyAll, TryUnifyFields, TryUnifyCases, UnifyFrom, AllDefinite, FieldsDefinite, CasesDefinite,
         AllResolved, FieldsResolved, CasesResolved, ShapesOf, FieldShapes, CaseShapes, Height, Total;
    match t.inner
    case TList(e) => DefiniteStays(e);
    case TTuple(ts) => AllDefiniteStay(ts);
    case TRecord(fs) => FieldsDefiniteStay(fs);
    case TOption(s) => DefiniteStays(s);
    case TResult(ok, error) =>
      if ok.Some? {
        DefiniteStays(ok.value);
      }
      if error.Some? {
        DefiniteStays(error.value);
      }
    case TVariant(vs) => CasesDefiniteStay(vs);
    case TRange(from, to) =>
      DefiniteStays(from);
      if to.Some? {
        DefiniteStays(to.value);
      }
    case _ =>
  }

  lemma {:induction false} AllDefiniteStay(ts: seq<InferredType>)
    requires hide *; AllDefinite(ts)
    ensures TryUnifyAll(ts).Ok? && ShapesOf(TryUnifyAll(ts).value) == ShapesOf(ts)
    ensures AllResolved(ts) ==> AllResolved(TryUnifyAll(ts).value)
    decreases ts
  {
    hide TryUnify, ShapeOf, Resolved, Definite, Highest, Height;
    if ts != [] {
      DefiniteStays(ts[0]);
      AllDefiniteStay(ts[1..]);
      var v, vs := TryUnify(ts[0]).value, TryUnifyAll(ts[1..]).value;
      assert ([v] + vs)[1..] == vs;
    }
  }

  lemma {:induction false} FieldsDefiniteStay(fs: seq<Field<InferredType>>)
    requires hide *; FieldsDefinite(fs)
    ensures TryUnifyFields(fs).Ok? && FieldShapes(TryUnifyFields(fs).value) == FieldShapes(fs)
    ensures FieldsResolved(fs) ==> FieldsResolved(TryUnifyFields(fs).value)
    decreases fs
  {
    hide TryUnify, ShapeOf, Resolved, Definite, HighestField, Height;
    if fs != [] {
      DefiniteStays(fs[0].of);
      FieldsDefiniteStay(fs[1..]);
      var v, vs := Field(fs[0].name, TryUnify(fs[0].of).value), TryUnifyFields(fs[1..]).value;
      assert ([v] + vs)[1..] == vs;
    }
  }

  lemma {:induction false} CasesDefiniteStay(vs: seq<Field<Option<InferredType>>>)
    requires hide *; CasesDefinite(vs)
    ensures TryUnifyCases(vs).Ok? && CaseShapes(TryUnifyCases(vs).value) == CaseShapes(vs)
    ensures CasesResolved(vs) ==> CasesResolved(TryUnifyCases(vs).value)
    decreases vs
  {
    hide TryUnify, ShapeOf, Resolved, Definite, HighestCase, Height;
    if vs != [] {
      if vs[0].of.Some? {
        DefiniteStays(vs[0].of.value);
      }
      CasesDefiniteStay(vs[1..]);
      var v, us := Field(vs[0].name, TryUnifyMaybe(vs[0].of).value), TryUnifyCases(vs[1..]).value;
      assert ([v] + us)[1..] == us;
    }
  }

  /** And only such a type does. */
  lemma {:induction false} OnlyDefiniteStays(t: InferredType)
    requires hide *; TryUnify(t).Ok? && Same(TryUnify(t).value, t)
    ensures Definite(t)
    decreases t
  {
    hide TryUnifyAll, TryUnifyFields, TryUnifyCases, UnifyFrom, AllDefinite, FieldsDefinite, CasesDefinite, ShapesOf,
         FieldShapes, CaseShapes, Height, Flatten, HeightMaybe;
    match t.inner
    case TList(e) => OnlyDefiniteStays(e);
    case TTuple(ts) => AllOnlyDefinite(ts);
    case TRecord(fs) => FieldsOnlyDefinite(fs);
    case TOption(s) => OnlyDefiniteStays(s);
    case TResult(ok, error) =>
      if ok.Some? {
        OnlyDefiniteStays(ok.value);
      }
      if error.Some? {
        OnlyDefiniteStays(error.value);
      }
    case TVariant(vs) => CasesOnlyDefinite(vs);
    case TRange(from, to) =>
      OnlyDefiniteStays(from);
      if to.Some? {
        OnlyDefiniteStays(to.value);
      }
    case _ =>
  }

  lemma {:induction false} AllOnlyDefinite(ts: seq<InferredType>)
    requires hide *; TryUnifyAll(ts).Ok? && ShapesOf(TryUnifyAll(ts).value) == ShapesOf(ts)
    ensures AllDefinite(ts)
    decreases ts
  {
    hide TryUnify, ShapeOf, Definite, Highest;
    if ts != [] {
      var v, vs := TryUnify(ts[0]).value, TryUnifyAll(ts[1..]).value;
      assert ([v] + vs)[1..] == vs;
      assert ShapesOf([v] + vs)[0] == ShapesOf(ts)[0] && ShapesOf([v] + vs)[1..] == ShapesOf(ts)[1..];
      OnlyDefiniteStays(ts[0]);
      AllOnlyDefinite(ts[1..]);
    }
  }

  lemma {:induction false} FieldsOnlyDefinite(fs: seq<Field<InferredType>>)
    requires hide *; TryUnifyFields(fs).Ok? && FieldShapes(TryUnifyFields(fs).value) == FieldShapes(fs)
    ensures FieldsDefinite(fs)
    decreases fs
  {
    hide TryUnify, ShapeOf, Definite, HighestField;
    if fs != [] {
      var v, vs := Field(fs[0].name, TryUnify(fs[0].of).value), TryUnifyFields(fs[1..]).value;
      assert ([v] + vs)[1..] == vs;
      assert FieldShapes([v] + vs)[0] == FieldShapes(fs)[0] && FieldShapes([v] + vs)[1..] == FieldShapes(fs)[1..];
      OnlyDefiniteStays(fs[0].of);
      FieldsOnlyDefinite(fs[1..]);
    }
  }

  lemma {:induction false} CasesOnlyDefinite(vs: seq<Field<Option<InferredType>>>)
    requires hide *; TryUnifyCases(vs).Ok? && CaseShapes(TryUnifyCases(vs).value) == CaseShapes(vs)
    ensures CasesDefinite(vs)
    decreases vs
  {
    hide TryUnify, ShapeOf, Definite, HighestCase;
    if vs != [] {
      var v, us := Field(vs[0].name, TryUnifyMaybe(vs[0].of).value), TryUnifyCases(vs[1..]).value;
      assert ([v] + us)[1..] == us;
      assert CaseShapes([v] + us)[0] == CaseShapes(vs)[0] && CaseShapes([v] + us)[1..] == CaseShapes(vs)[1..];
      if vs[0].of.Some? {
        OnlyDefiniteStays(vs[0].of.value);
      }
      CasesOnlyDefinite(vs[1..]);
    }
  }

  /** A unified type has nothing unknown or ambiguous outside of one side of a result. Unifying it again changes nothing
      but origins exactly if there are no alternatives left on such a side either. */
  lemma UnifiedIsResolved(t: InferredType)
    requires hide *; Unify(t).Ok?
    ensures Resolved(Unify(t).value)
    ensures var again := Unify(Unify(t).value);
            Definite(Unify(t).value) <==> again.Ok? && Same(again.value, Unify(t).value)
  {
    hide TryUnify, Validate, Resolved, Definite, ShapeOf, Height;
    ValidExactly(TryUnify(t).value);
    var r := Unify(t).value;
    if Definite(r) {
      DefiniteStays(r);
    }
    if TryUnify(r).Ok? {
      ValidExactly(TryUnify(r).value);
    }
    if Unify(r).Ok? && Same(Unify(r).value, r) {
      OnlyDefiniteStays(r);
    }
  }

  // ---------- properties that unification keeps ----------

  /** Record fields, variant cases and flags with names of their own; or no results at all. */
  datatype Wish = NamesApart | NoResults

  predicate Apart(wish: Wish, names: seq<string>) { wish.NamesApart? ==> NoRepeats(names) }

  predicate Meets(wish: Wish, t: InferredType)
    decreases t
  {
    hide *;
    match t.inner
    case TList(e) => Meets(wish, e)
    case TTuple(ts) => AllMeet(wish, ts)
    case TRecord(fs) => Apart(wish, NamesOf(fs)) && FieldsMeet(wish, fs)
    case TFlags(names) => Apart(wish, names)
    case TOption(s) => Meets(wish, s)
    case TResult(ok, error) =>
      wish.NamesApart? && (ok.Some? ==> Meets(wish, ok.value)) && (error.Some? ==> Meets(wish, error.value))
    case TVariant(vs) => Apart(wish, NamesOf(vs)) && CasesMeet(wish, vs)
    case TRange(from, to) => Meets(wish, from) && (to.Some? ==> Meets(wish, to.value))
    case TAllOf(ts) => AllMeet(wish, ts)
    case _ => true
  }

  predicate AllMeet(wish: Wish, ts: seq<InferredType>)
    decreases ts
  {
    hide *;
    ts == [] || (Meets(wish, ts[0]) && AllMeet(wish, ts[1..]))
  }

  predicate FieldsMeet(wish: Wish, fs: seq<Field<InferredType>>)
    decreases fs
  {
    hide *;
    fs == [] || (Meets(wish, fs[0].of) && FieldsMeet(wish, fs[1..]))
  }

  predicate MaybeMeets(wish: Wish, t: Option<InferredType>)
    decreases t
  {
    hide *;
    t.Some? ==> Meets(wish, t.value)
  }

  predicate CasesMeet(wish: Wish, vs: seq<Field<Option<InferredType>>>)
    decreases vs
  {
    hide *;
    vs == [] || (MaybeMeets(wish, vs[0].of) && CasesMeet(wish, vs[1..]))
  }

  lemma AllMeetAppend(wish: Wish, a: seq<InferredType>, b: seq<InferredType>)
    ensures AllMeet(wish, a + b) <==> AllMeet(wish, a) && AllMeet(wish, b)
  {
    hide Meets;
    if a == [] {
      assert a + b == b;
    } else {
      assert (a + b)[1..] == a[1..] + b;
      AllMeetAppend(wish, a[1..], b);
    }
  }

  lemma FieldsMeetAppend(wish: Wish, a: seq<Field<InferredType>>, b: seq<Field<InferredType>>)
    ensures FieldsMeet(wish, a + b) <==> FieldsMeet(wish, a) && FieldsMeet(wish, b)
  {
    hide Meets;
    if a == [] {
      assert a + b == b;
    } else {
      assert (a + b)[1..] == a[1..] + b;
      FieldsMeetAppend(wish, a[1..], b);
    }
  }

  lemma FlattenMeets(wish: Wish, ts: seq<InferredType>)
    requires AllMeet(wish, ts)
    ensures AllMeet(wish, Flatten(ts))
    decreases Total(ts)
  {
    hide CasesMeet, FieldsMeet;
    if ts != [] {
      FlattenMeets(wish, ts[1..]);
      match ts[0].inner
      case TAllOf(nested) =>
        assert Height(ts[0]) == 2 + Total(nested);
        FlattenMeets(wish, nested);
        AllMeetAppend(wish, Flatten(nested), Flatten(ts[1..]));
      case _ =>
        AllMeetAppend(wish, [ts[0]], Flatten(ts[1..]));
    }
  }

  lemma {:induction false} ValidMeets(wish: Wish, t: InferredType)
    requires hide *; Meets(wish, t) && Validate(t).Ok?
    ensures Meets(wish, Validate(t).value)
    decreases t
  {
    hide ValidateAll, FieldsValid, CasesValid, AllMeet, FieldsMeet, CasesMeet, Apart;
    match t.inner
    case TList(e) => ValidMeets(wish, e);
    case TTuple(ts) => AllValidMeet(wish, ts);
    case TOption(s) => ValidMeets(wish, s);
    case TRange(from, to) =>
      ValidMeets(wish, from);
      if to.Some? {
        ValidMeets(wish, to.value);
      }
    case _ =>
  }

  lemma {:induction false} AllValidMeet(wish: Wish, ts: seq<InferredType>)
    requires hide *; AllMeet(wish, ts) && ValidateAll(ts).Ok?
    ensures AllMeet(wish, ValidateAll(ts).value)
    decreases ts
  {
    hide Validate, Meets;
    if ts != [] {
      ValidMeets(wish, ts[0]);
      AllValidMeet(wish, ts[1..]);
      var v, vs := Validate(ts[0]).value, ValidateAll(ts[1..]).value;
      assert ([v] + vs)[1..] == vs;
    }
  }

  lemma {:induction false} TryMeets(wish: Wish, t: InferredType)
    requires hide *; Meets(wish, t) && TryUnify(t).Ok?
    ensures Meets(wish, TryUnify(t).value)
    decreases Height(t), 0, 0
  {
    hide TryUnifyAll, TryUnifyFields, TryUnifyCases, TryUnifyMaybe, UnifyFrom, AllMeet, FieldsMeet, CasesMeet, Apart,
         NamesOf, Flatten, Highest, HighestField;
    match t.inner
    case TAllOf(ts) =>
      FlattenMeets(wish, ts);
      FromMeets(wish, UNKNOWN, Flatten(ts));
    case TOption(s) => TryMeets(wish, s);
    case TResult(ok, error) =>
      TryMaybeMeets(wish, ok);
      TryMaybeMeets(wish, error);
    case TRecord(fs) => TryFieldsMeet(wish, fs);
    case TTuple(ts) => TryAllMeet(wish, ts);
    case TList(e) => TryMeets(wish, e);
    case TRange(from, to) =>
      TryMeets(wish, from);
      TryMaybeMeets(wish, to);
    case TVariant(vs) => TryCasesMeet(wish, vs);
    case _ =>
  }

  lemma {:induction false} TryMaybeMeets(wish: Wish, t: Option<InferredType>)
    requires hide *; MaybeMeets(wish, t) && TryUnifyMaybe(t).Ok?
    ensures MaybeMeets(wish, TryUnifyMaybe(t).value)
    decreases HeightMaybe(t), 1, 0
  {
    hide TryUnify, Meets, Height;
    if t.Some? {
      TryMeets(wish, t.value);
    }
  }

  lemma {:induction false} TryAllMeet(wish: Wish, ts: seq<InferredType>)
    requires hide *; AllMeet(wish, ts) && TryUnifyAll(ts).Ok?
    ensures AllMeet(wish, TryUnifyAll(ts).value)
    decreases Highest(ts), 1, |ts|
  {
    hide TryUnify, Meets, Height;
    if ts != [] {
      TryMeets(wish, ts[0]);
      TryAllMeet(wish, ts[1..]);
      var v, vs := TryUnify(ts[0]).value, TryUnifyAll(ts[1..]).value;
      assert ([v] + vs)[1..] == vs;
    }
  }

  lemma {:induction false} TryFieldsMeet(wish: Wish, fs: seq<Field<InferredType>>)
    requires hide *; FieldsMeet(wish, fs) && TryUnifyFields(fs).Ok?
    ensures FieldsMeet(wish, TryUnifyFields(fs).value) && NamesOf(TryUnifyFields(fs).value) == NamesOf(fs)
    decreases HighestField(fs), 1, |fs|
  {
    hide TryUnify, Meets, Height, HighestField;
    if fs != [] {
      FieldsWeigh(fs);
      TryMeets(wish, fs[0].of);
      TryFieldsMeet(wish, fs[1..]);
      var v, vs := Field(fs[0].name, TryUnify(fs[0].of).value), TryUnifyFields(fs[1..]).value;
      assert ([v] + vs)[1..] == vs;
      assert NamesOf(fs) == [fs[0].name] + NamesOf(fs[1..]);
    }
  }

  lemma FieldsWeigh(fs: seq<Field<InferredType>>)
    requires hide *; fs != []
    ensures HighestField(fs) == Max(Height(fs[0].of), HighestField(fs[1..]))
  {
    hide Height;
  }

  lemma {:induction false} TryCasesMeet(wish: Wish, vs: seq<Field<Option<InferredType>>>)
    requires hide *; CasesMeet(wish, vs) && TryUnifyCases(vs).Ok?
    ensures CasesMeet(wish, TryUnifyCases(vs).value) && NamesOf(TryUnifyCases(vs).value) == NamesOf(vs)
    decreases HighestCase(vs), 2, |vs|
  {
    hide TryUnifyMaybe, MaybeMeets, Height;
    if vs != [] {
      TryMaybeMeets(wish, vs[0].of);
      TryCasesMeet(wish, vs[1..]);
      var v, us := Field(vs[0].name, TryUnifyMaybe(vs[0].of).value), TryUnifyCases(vs[1..]).value;
      assert ([v] + us)[1..] == us;
      assert NamesOf(vs) == [vs[0].name] + NamesOf(vs[1..]);
    }
  }

  lemma {:induction false} FromMeets(wish: Wish, acc: InferredType, ts: seq<InferredType>)
    requires hide *; !acc.inner.TAllOf? && forall t :: t in ts ==> !t.inner.TAllOf?
    requires Meets(wish, acc) && AllMeet(wish, ts) && UnifyFrom(acc, ts).Ok?
    ensures Meets(wish, UnifyFrom(acc, ts).value)
    decreases Height(acc) + Total(ts), 2, |ts|
  {
    hide TryUnify, UnifyBoth, Meets, Height;
    if ts != [] {
      assert ts[0] in ts;
      var u := TryUnify(ts[0]);
      if u.Ok? {
        TryMeets(wish, ts[0]);
      }
      var next := if u.Ok? then u.value else ts[0];
      BothMeets(wish, acc, next);
      FromMeets(wish, UnifyBoth(acc, next).value, ts[1..]);
    }
  }

  lemma {:induction false} BothMeets(wish: Wish, l: InferredType, r: InferredType)
    requires hide *; Meets(wish, l) && Meets(wish, r) && UnifyBoth(l, r).Ok?
    ensures Meets(wish, UnifyBoth(l, r).value)
    decreases Height(l) + Height(r), 1, 0
  {
    hide TryUnify, UnifyParts, Meets, Height, ShapeOf;
    if !r.inner.TUnknown? && !l.inner.TUnknown? && !Same(l, r) {
      TryMeets(wish, l);
      TryMeets(wish, r);
      PartsMeet(wish, TryUnify(l).value, TryUnify(r).value);
    }
  }

  lemma {:induction false} PartsMeet(wish: Wish, l: InferredType, r: InferredType)
    requires hide *; !l.inner.TAllOf? && !r.inner.TAllOf?
    requires Meets(wish, l) && Meets(wish, r) && UnifyParts(l, r).Ok?
    ensures Meets(wish, UnifyParts(l, r).value)
    decreases Height(l) + Height(r), 0, 2
  {
    hide UnifyRecords, UnifyPairs, UnifyBoth, UnifyCases, UnifyMoreParts, AllMeet, FieldsMeet, CasesMeet, Apart,
         NamesOf, Highest, HighestCase;
    if l.inner.TRecord? && r.inner.TRecord? {
      RecordsMeet(wish, l.inner.fields, r.inner.fields);
    } else if l.inner.TTuple? && r.inner.TTuple? {
      PairsMeet(wish, l.inner.items, r.inner.items);
    } else if l.inner.TList? && r.inner.TList? {
      BothMeets(wish, l.inner.elem, r.inner.elem);
    } else if l.inner.TOption? && r.inner.TOption? {
      BothMeets(wish, l.inner.some, r.inner.some);
    } else if l.inner.TVariant? && r.inner.TVariant? {
      UnifyCasesMeet(wish, l.inner.variants, r.inner.variants);
    } else {
      MorePartsMeet(wish, l, r);
    }
  }

  lemma {:induction false} MorePartsMeet(wish: Wish, l: InferredType, r: InferredType)
    requires hide *; !l.inner.TAllOf? && !r.inner.TAllOf?
    requires Meets(wish, l) && Meets(wish, r) && UnifyMoreParts(l, r).Ok?
    ensures Meets(wish, UnifyMoreParts(l, r).value)
    decreases Height(l) + Height(r), 0, 1
  {
    hide UnifyRanges, UnifyResults, UnifyOption, AllMeet, FieldsMeet, CasesMeet, Apart, ShapeOf, UnifyRest;
    if l.inner.TFlags? && r.inner.TFlags? {
    } else if l.inner.TRange? && r.inner.TRange? {
      RangesMeet(wish, l.inner.from, l.inner.to, r.inner.from, r.inner.to);
    } else if l.inner.TResult? && r.inner.TResult? {
      ResultsMeet(wish, l.inner.ok, l.inner.error, r.inner.ok, r.inner.error);
    } else if (l.inner.TEnum? && r.inner.TEnum?) || (l.inner.TResource? && r.inner.TResource?) {
    } else if l.inner.TOption? {
      OptionMeets(wish, l.inner.some, r);
    } else if r.inner.TOption? {
      OptionMeets(wish, r.inner.some, l);
    }
  }

  lemma {:induction false} OptionMeets(wish: Wish, a: InferredType, other: InferredType)
    requires hide *; !other.inner.TAllOf? && Meets(wish, a) && Meets(wish, other) && UnifyOption(a, other).Ok?
    ensures Meets(wish, UnifyOption(a, other).value)
    decreases Height(a) + Height(other), 2, 0
  {
    hide TryUnify, UnifyBoth, Validate, Height;
    TryMeets(wish, a);
    TryMeets(wish, other);
    var x, y := TryUnify(a).value, TryUnify(other).value;
    ValidMeets(wish, x);
    ValidMeets(wish, y);
    ValidHeight(x);
    ValidHeight(y);
    BothMeets(wish, Validate(x).value, Validate(y).value);
  }

  lemma {:induction false} UnifyMaybeMeets(wish: Wish, a: Option<InferredType>, b: Option<InferredType>)
    requires hide *; MaybeMeets(wish, a) && MaybeMeets(wish, b) && UnifyMaybe(a, b).Ok?
    ensures MaybeMeets(wish, UnifyMaybe(a, b).value)
    decreases HeightMaybe(a) + HeightMaybe(b), 2, 0
  {
    hide UnifyBoth, Meets, Height;
    if a.Some? && b.Some? {
      BothMeets(wish, a.value, b.value);
    }
  }

  lemma {:induction false} RangesMeet(wish: Wish, from: InferredType, to: Option<InferredType>, from2: InferredType,
                                      to2: Option<InferredType>)
    requires hide *; Meets(wish, from) && Meets(wish, from2) && MaybeMeets(wish, to) && MaybeMeets(wish, to2)
    requires UnifyRanges(from, to, from2, to2).Ok?
    ensures Meets(wish, UnifyRanges(from, to, from2, to2).value)
    decreases Max(Height(from), HeightMaybe(to)) + Max(Height(from2), HeightMaybe(to2)), 3, 0
  {
    hide UnifyBoth, UnifyMaybe, Height;
    BothMeets(wish, from, from2);
    UnifyMaybeMeets(wish, to, to2);
  }

  lemma {:induction false} ResultsMeet(wish: Wish, ok: Option<InferredType>, error: Option<InferredType>,
                                       ok2: Option<InferredType>, error2: Option<InferredType>)
    requires hide *;
             MaybeMeets(wish, ok) && MaybeMeets(wish, ok2) && MaybeMeets(wish, error) && MaybeMeets(wish, error2)
    requires wish.NamesApart? && UnifyResults(ok, error, ok2, error2).Ok?
    ensures Meets(wish, UnifyResults(ok, error, ok2, error2).value)
    decreases Max(HeightMaybe(ok), HeightMaybe(error)) + Max(HeightMaybe(ok2), HeightMaybe(error2)), 3, 0
  {
    hide UnifyMaybe, Height, HeightMaybe, Apart;
    UnifyMaybeMeets(wish, ok, ok2);
    UnifyMaybeMeets(wish, error, error2);
  }

  lemma {:induction false} PairsMeet(wish: Wish, ts: seq<InferredType>, vs: seq<InferredType>)
    requires hide *; |ts| == |vs| && AllMeet(wish, ts) && AllMeet(wish, vs) && UnifyPairs(ts, vs).Ok?
    ensures AllMeet(wish, UnifyPairs(ts, vs).value)
    decreases Highest(ts) + Highest(vs), 2, |ts|
  {
    hide UnifyBoth, Meets, Height;
    if ts != [] {
      BothMeets(wish, ts[0], vs[0]);
      PairsMeet(wish, ts[1..], vs[1..]);
      var u, us := UnifyBoth(ts[0], vs[0]).value, UnifyPairs(ts[1..], vs[1..]).value;
      assert ([u] + us)[1..] == us;
    }
  }

  lemma FindFieldMeets(wish: Wish, fs: seq<Field<InferredType>>, name: string)
    requires FieldsMeet(wish, fs)
    ensures MaybeMeets(wish, FindField(fs, name))
  {
    hide Meets, Height, HighestField;
  }

  lemma FindCaseMeets(wish: Wish, vs: seq<Field<Option<InferredType>>>, name: string)
    requires hide *; CasesMeet(wish, vs)
    ensures FindCase(vs, name).Some? ==> MaybeMeets(wish, FindCase(vs, name).value)
  {
    hide MaybeMeets;
  }

  lemma {:induction false} UnifyFieldsMeet(wish: Wish, fs: seq<Field<InferredType>>, gs: seq<Field<InferredType>>)
    requires hide *; FieldsMeet(wish, fs) && FieldsMeet(wish, gs) && UnifyFields(fs, gs).Ok?
    ensures FieldsMeet(wish, UnifyFields(fs, gs).value) && NamesOf(UnifyFields(fs, gs).value) == NamesOf(fs)
    decreases HighestField(fs) + HighestField(gs), 2, |fs|
  {
    hide UnifyBoth, Meets, Height, HighestField;
    if fs != [] {
      FieldsWeigh(fs);
      var g := FindField(gs, fs[0].name);
      FindFieldMeets(wish, gs, fs[0].name);
      if g.Some? {
        BothMeets(wish, fs[0].of, g.value);
      }
      UnifyFieldsMeet(wish, fs[1..], gs);
      var u := if g.Some? then UnifyBoth(fs[0].of, g.value).value else fs[0].of;
      var v, us := Field(fs[0].name, u), UnifyFields(fs[1..], gs).value;
      assert ([v] + us)[1..] == us;
      assert NamesOf(fs) == [fs[0].name] + NamesOf(fs[1..]);
    }
  }

  lemma {:induction false} OnlyInMeets(wish: Wish, gs: seq<Field<InferredType>>, fs: seq<Field<InferredType>>)
    requires FieldsMeet(wish, gs)
    ensures FieldsMeet(wish, OnlyIn(gs, fs))
    ensures forall n :: n in NamesOf(OnlyIn(gs, fs)) ==> n in NamesOf(gs) && FindField(fs, n).None?
    ensures NoRepeats(NamesOf(gs)) ==> NoRepeats(NamesOf(OnlyIn(gs, fs)))
  {
    hide Meets, NoRepeats, Height, HighestField;
    if gs != [] {
      OnlyInMeets(wish, gs[1..], fs);
      var rest := OnlyIn(gs[1..], fs);
      assert NamesOf(gs) == [gs[0].name] + NamesOf(gs[1..]);
      TailApart(gs[0].name, NamesOf(gs[1..]));
      if FindField(fs, gs[0].name).None? {
        assert ([gs[0]] + rest)[1..] == rest;
        assert NamesOf([gs[0]] + rest) == [gs[0].name] + NamesOf(rest);
        TailApart(gs[0].name, NamesOf(rest));
      }
    }
  }

  lemma TailApart(n: string, ns: seq<string>)
    ensures NoRepeats([n] + ns) <==> NoRepeats(ns) && n !in ns
  {
    var all := [n] + ns;
    if NoRepeats(all) {
      forall i, j | 0 <= i < j < |ns| ensures ns[i] != ns[j] {
        assert all[i + 1] != all[j + 1];
      }
      forall i | 0 <= i < |ns| ensures ns[i] != n {
        assert all[0] != all[i + 1];
      }
    }
    if NoRepeats(ns) && n !in ns {
      forall i, j | 0 <= i < j < |all| ensures all[i] != all[j] {
        assert all[j] == ns[j - 1];
        assert i > 0 ==> all[i] == ns[i - 1];
      }
    }
  }

  lemma AppendApart(a: seq<string>, b: seq<string>)
    requires NoRepeats(a) && NoRepeats(b) && forall n :: n in b ==> n !in a
    ensures NoRepeats(a + b)
  {
    var all := a + b;
    forall i, j | 0 <= i < j < |all| ensures all[i] != all[j] {
      if i >= |a| {
        assert all[i] == b[i - |a|] && all[j] == b[j - |a|];
      } else if j >= |a| {
        assert all[j] == b[j - |a|] && b[j - |a|] in b && all[i] in a;
      }
    }
  }

  lemma NamesAppend<X>(a: seq<Field<X>>, b: seq<Field<X>>)
    ensures NamesOf(a + b) == NamesOf(a) + NamesOf(b)
  {
    if a == [] {
      assert a + b == b;
    } else {
      assert (a + b)[1..] == a[1..] + b;
    }
  }

  lemma NamedFound(fs: seq<Field<InferredType>>, n: string)
    ensures FindField(fs, n).Some? <==> n in NamesOf(fs)
  {
    hide Height, HighestField;
    if fs != [] {
      assert NamesOf(fs) == [fs[0].name] + NamesOf(fs[1..]);
    }
  }

  lemma {:induction false} RecordsMeet(wish: Wish, fs: seq<Field<InferredType>>, gs: seq<Field<InferredType>>)
    requires hide *;
             Apart(wish, NamesOf(fs)) && Apart(wish, NamesOf(gs)) && FieldsMeet(wish, fs) && FieldsMeet(wish, gs)
    requires UnifyRecords(fs, gs).Ok?
    ensures Meets(wish, UnifyRecords(fs, gs).value)
    decreases HighestField(fs) + HighestField(gs), 3, 0
  {
    hide UnifyFields, OnlyIn, FieldsMeet, Height, NoRepeats, NamesOf;
    UnifyFieldsMeet(wish, fs, gs);
    OnlyInMeets(wish, gs, fs);
    var us, only := UnifyFields(fs, gs).value, OnlyIn(gs, fs);
    FieldsMeetAppend(wish, us, only);
    NamesAppend(us, only);
    if wish.NamesApart? {
      forall n | n in NamesOf(only) ensures n !in NamesOf(us) {
        NamedFound(fs, n);
      }
      AppendApart(NamesOf(us), NamesOf(only));
    }
  }

  lemma {:induction false} UnifyCasesMeet(wish: Wish, vs: seq<Field<Option<InferredType>>>,
                                          ws: seq<Field<Option<InferredType>>>)
    requires hide *; Apart(wish, NamesOf(vs)) && CasesMeet(wish, vs) && CasesMeet(wish, ws) && UnifyCases(vs, ws).Ok?
    ensures CasesMeet(wish, UnifyCases(vs, ws).value) && Apart(wish, NamesOf(UnifyCases(vs, ws).value))
    ensures forall n :: n in NamesOf(UnifyCases(vs, ws).value) ==> n in NamesOf(vs)
    decreases HighestCase(vs) + HighestCase(ws), 2, |vs|
  {
    hide UnifyBoth, Meets, Height, NoRepeats;
    if vs != [] {
      var w := FindCase(ws, vs[0].name);
      FindCaseMeets(wish, ws, vs[0].name);
      assert NamesOf(vs) == [vs[0].name] + NamesOf(vs[1..]);
      TailApart(vs[0].name, NamesOf(vs[1..]));
      UnifyCasesMeet(wish, vs[1..], ws);
      if w.Some? {
        var both := vs[0].of.Some? && w.value.Some?;
        if both {
          BothMeets(wish, vs[0].of.value, w.value.value);
        }
        var v := Field(vs[0].name, if both then Some(UnifyBoth(vs[0].of.value, w.value.value).value) else None);
        var us := UnifyCases(vs[1..], ws).value;
        assert ([v] + us)[1..] == us;
        assert NamesOf([v] + us) == [v.name] + NamesOf(us);
        TailApart(v.name, NamesOf(us));
      }
    }
  }

  // ---------- no results: always the same again ----------

  /** Resolved types without results have no alternatives. */
  lemma {:induction false} ResolvedDefinite(t: InferredType)
    requires Resolved(t) && Meets(NoResults, t)
    ensures Definite(t)
    decreases t
  {
    match t.inner
    case TList(e) => ResolvedDefinite(e);
    case TTuple(ts) => AllResolvedDefinite(ts);
    case TRecord(fs) => FieldsResolvedDefinite(fs);
    case TOption(s) => ResolvedDefinite(s);
    case TVariant(vs) => CasesResolvedDefinite(vs);
    case TRange(from, to) =>
      ResolvedDefinite(from);
      if to.Some? {
        ResolvedDefinite(to.value);
      }
    case _ =>
  }

  lemma {:induction false} AllResolvedDefinite(ts: seq<InferredType>)
    requires AllResolved(ts) && AllMeet(NoResults, ts)
    ensures AllDefinite(ts)
    decreases ts
  {
    hide Definite, Meets, Resolved;
    if ts != [] {
      ResolvedDefinite(ts[0]);
      AllResolvedDefinite(ts[1..]);
    }
  }

  lemma {:induction false} FieldsResolvedDefinite(fs: seq<Field<InferredType>>)
    requires FieldsResolved(fs) && FieldsMeet(NoResults, fs)
    ensures FieldsDefinite(fs)
    decreases fs
  {
    hide Definite, Meets, Resolved;
    if fs != [] {
      ResolvedDefinite(fs[0].of);
      FieldsResolvedDefinite(fs[1..]);
    }
  }

  lemma {:induction false} CasesResolvedDefinite(vs: seq<Field<Option<InferredType>>>)
    requires CasesResolved(vs) && CasesMeet(NoResults, vs)
    ensures CasesDefinite(vs)
    decreases vs
  {
    if vs != [] {
      if vs[0].of.Some? {
        ResolvedDefinite(vs[0].of.value);
      }
      CasesResolvedDefinite(vs[1..]);
    }
  }

  /** For types without results unification is idempotent up to origins. */
  lemma UnifyTwice(t: InferredType)
    requires hide *; Meets(NoResults, t) && Unify(t).Ok?
    ensures Unify(Unify(t).value).Ok? && Same(Unify(Unify(t).value).value, Unify(t).value)
  {
    hide TryUnify, Validate, Resolved, Definite, ShapeOf, Meets, Height;
    TryMeets(NoResults, t);
    ValidMeets(NoResults, TryUnify(t).value);
    UnifiedIsResolved(t);
    ResolvedDefinite(Unify(t).value);
  }

  const AMBIGUOUS: InferredType := Plain(TList(Plain(TAllOf([Plain(TBool), Plain(TStr)]))))

  lemma FlattenOne(t: InferredType)
    requires !t.inner.TAllOf?
    ensures Flatten([t]) == [t]
  {
    assert Flatten([]) == [];
  }

  lemma FromOne(t: InferredType)
    requires hide Height, Total, TryUnify, UnifyBoth; !t.inner.TAllOf? && !t.inner.TUnknown? && TryUnify(t).Err?
    ensures UnifyFrom(UNKNOWN, [t]) == Ok(t)
  {
    hide TryUnify, Height, UnifyParts, Same;
    assert UnifyBoth(UNKNOWN, t) == Ok(t);
    assert [t][1..] == [];
  }

  lemma AmbiguousFails()
    ensures TryUnify(AMBIGUOUS).Err?
  {
    hide TryUnifyAll, TryUnifyMaybe;
    var b, s := Plain(TBool), Plain(TStr);
    FlattenOne(s);
    assert Flatten([b, s]) == [b, s];
    assert UnifyBoth(UNKNOWN, b) == Ok(b) && UnifyBoth(b, s).Err?;
    assert UnifyFrom(b, [s]).Err? && UnifyFrom(UNKNOWN, [b, s]).Err?;
    assert TryUnify(Plain(TAllOf([b, s]))).Err?;
  }

  /** With a result it is not: one side may keep alternatives that cannot be unified the next time. */
  lemma UnifyOnce()
    ensures hide *; var t := Plain(TAllOf([Plain(TResult(Some(Plain(TBool)), Some(AMBIGUOUS)))]));
            Unify(t).Ok? && Unify(Unify(t).value).Err?
  {
    hide UnifyFrom, UnifyBoth, Flatten, Height, ValidateAll;
    var r := Plain(TResult(Some(Plain(TBool)), Some(AMBIGUOUS)));
    AmbiguousFails();
    assert TryUnify(r).Err?;
    FlattenOne(r);
    FromOne(r);
    assert TryUnify(Plain(TAllOf([r]))) == Ok(r);
    assert Validate(r) == Ok(r);
  }

  // ===== How large unified types get: never larger than the types they come from, as long as no record and no
  // variant repeats a name.

  // ---------- size ----------

  /** The number of types in a type. */
  function Nodes(t: InferredType): (n: nat)
    ensures hide *; n >= 1
    decreases t
  {
    match t.inner
    case TList(e) => 1 + Nodes(e)
    case TTuple(ts) => 1 + NodesAll(ts)
    case TRecord(fs) => 1 + NodesFields(fs)
    case TOption(s) => 1 + Nodes(s)
    case TResult(ok, error) => 1 + NodesMaybe(ok) + NodesMaybe(error)
    case TVariant(vs) => 1 + NodesCases(vs)
    case TRange(from, to) => 1 + Nodes(from) + NodesMaybe(to)
    case TAllOf(ts) => 1 + NodesAll(ts)
    case TSequence(ts) => 1 + NodesAll(ts)
    case _ => 1
  }

  function NodesMaybe(t: Option<InferredType>): nat
    decreases t
  {
    if t.Some? then Nodes(t.value) else 0
  }

  function NodesAll(ts: seq<InferredType>): nat
    decreases ts
  {
    hide *;
    if ts == [] then 0 else Nodes(ts[0]) + NodesAll(ts[1..])
  }

  function NodesFields(fs: seq<Field<InferredType>>): nat
    decreases fs
  {
    hide *;
    if fs == [] then 0 else Nodes(fs[0].of) + NodesFields(fs[1..])
  }

  function NodesCases(vs: seq<Field<Option<InferredType>>>): nat
    decreases vs
  {
    hide *;
    if vs == [] then 0 else NodesMaybe(vs[0].of) + NodesCases(vs[1..])
  }

  lemma NodesAppend(a: seq<InferredType>, b: seq<InferredType>)
    ensures NodesAll(a + b) == NodesAll(a) + NodesAll(b)
  {
    hide Nodes;
    if a == [] {
      assert a + b == b;
    } else {
      assert (a + b)[1..] == a[1..] + b;
      NodesAppend(a[1..], b);
    }
  }

  lemma FieldNodesAppend(a: seq<Field<InferredType>>, b: seq<Field<InferredType>>)
    ensures NodesFields(a + b) == NodesFields(a) + NodesFields(b)
  {
    hide Nodes;
    if a == [] {
      assert a + b == b;
    } else {
      assert (a + b)[1..] == a[1..] + b;
      FieldNodesAppend(a[1..], b);
    }
  }

  lemma FlattenNodes(ts: seq<InferredType>)
    ensures NodesAll(Flatten(ts)) <= NodesAll(ts)
    decreases Total(ts)
  {
    if ts != [] {
      FlattenNodes(ts[1..]);
      match ts[0].inner
      case TAllOf(nested) =>
        assert Height(ts[0]) == 2 + Total(nested);
        FlattenNodes(nested);
        NodesAppend(Flatten(nested), Flatten(ts[1..]));
      case _ =>
        NodesAppend([ts[0]], Flatten(ts[1..]));
        assert [ts[0]][1..] == [];
    }
  }

  lemma {:induction false} ValidNodes(t: InferredType)
    requires hide *; Validate(t).Ok?
    ensures Nodes(Validate(t).value) == Nodes(t)
    decreases t
  {
    hide ValidateAll, FieldsValid, CasesValid, NodesAll, NodesFields, NodesCases;
    match t.inner
    case TList(e) => ValidNodes(e);
    case TTuple(ts) => AllValidNodes(ts);
    case TOption(s) => ValidNodes(s);
    case TRange(from, to) =>
      ValidNodes(from);
      if to.Some? {
        ValidNodes(to.value);
      }
    case _ =>
  }

  lemma {:induction false} AllValidNodes(ts: seq<InferredType>)
    requires hide *; ValidateAll(ts).Ok?
    ensures NodesAll(ValidateAll(ts).value) == NodesAll(ts)
    decreases ts
  {
    hide Validate, Nodes;
    if ts != [] {
      ValidNodes(ts[0]);
      AllValidNodes(ts[1..]);
      var v, vs := Validate(ts[0]).value, ValidateAll(ts[1..]).value;
      assert ([v] + vs)[1..] == vs;
    }
  }

  // ---------- fields and cases that are found ----------

  /** The fields of the second record that the first one finds by name. */
  function FoundFields(fs: seq<Field<InferredType>>, gs: seq<Field<InferredType>>): nat
    decreases |fs|
  {
    hide *;
    if fs == [] then 0 else NodesMaybe(FindField(gs, fs[0].name)) + FoundFields(fs[1..], gs)
  }

  function FoundCases(vs: seq<Field<Option<InferredType>>>, ws: seq<Field<Option<InferredType>>>): nat
    decreases |vs|
  {
    hide *;
    if vs == [] then 0 else
    var w := FindCase(ws, vs[0].name);
    (if w.Some? then NodesMaybe(w.value) else 0) + FoundCases(vs[1..], ws)
  }

  /** One more field is found at most once. */
  lemma {:induction false} FoundOnce(fs: seq<Field<InferredType>>, g: Field<InferredType>, gs: seq<Field<InferredType>>)
    requires NoRepeats(NamesOf(fs))
    ensures FoundFields(fs, [g] + gs) <= FoundFields(fs, gs) + (if FindField(fs, g.name).Some? then Nodes(g.of) else 0)
    decreases |fs|
  {
    hide Nodes, NoRepeats, HighestField, Height;
    if fs != [] {
      assert NamesOf(fs) == [fs[0].name] + NamesOf(fs[1..]);
      TailApart(fs[0].name, NamesOf(fs[1..]));
      FoundOnce(fs[1..], g, gs);
      NamedFound(fs[1..], g.name);
      assert ([g] + gs)[0] == g && ([g] + gs)[1..] == gs;
    }
  }

  /** What is found and what only the second record has are together no more than the second record. */
  lemma {:induction false} FoundAndOnly(fs: seq<Field<InferredType>>, gs: seq<Field<InferredType>>)
    requires NoRepeats(NamesOf(fs))
    ensures FoundFields(fs, gs) + NodesFields(OnlyIn(gs, fs)) <= NodesFields(gs)
    decreases |gs|
  {
    hide Nodes, NoRepeats, HighestField, Height, FindField;
    if gs == [] {
      NothingFound(fs);
    } else {
      FoundAndOnly(fs, gs[1..]);
      FoundOnce(fs, gs[0], gs[1..]);
      assert [gs[0]] + gs[1..] == gs;
      assert ([gs[0]] + OnlyIn(gs[1..], fs))[1..] == OnlyIn(gs[1..], fs);
    }
  }

  lemma NothingFound(fs: seq<Field<InferredType>>)
    ensures FoundFields(fs, []) == 0
    decreases |fs|
  {
    if fs != [] {
      NothingFound(fs[1..]);
    }
  }

  lemma {:induction false} FoundCaseOnce(vs: seq<Field<Option<InferredType>>>, w: Field<Option<InferredType>>,
                                         ws: seq<Field<Option<InferredType>>>)
    requires NoRepeats(NamesOf(vs))
    ensures FoundCases(vs, [w] + ws) <= FoundCases(vs, ws) + NodesMaybe(w.of)
    ensures w.name !in NamesOf(vs) ==> FoundCases(vs, [w] + ws) == FoundCases(vs, ws)
    decreases |vs|
  {
    hide Nodes, NoRepeats, HighestCase, Height;
    if vs != [] {
      assert NamesOf(vs) == [vs[0].name] + NamesOf(vs[1..]);
      TailApart(vs[0].name, NamesOf(vs[1..]));
      FoundCaseOnce(vs[1..], w, ws);
      assert ([w] + ws)[0] == w && ([w] + ws)[1..] == ws;
    }
  }

  lemma {:induction false} FoundCasesBelow(vs: seq<Field<Option<InferredType>>>, ws: seq<Field<Option<InferredType>>>)
    requires NoRepeats(NamesOf(vs))
    ensures FoundCases(vs, ws) <= NodesCases(ws)
    decreases |ws|
  {
    hide Nodes, NoRepeats, HighestCase, Height, FindCase;
    if ws == [] {
      NoCaseFound(vs);
    } else {
      FoundCasesBelow(vs, ws[1..]);
      FoundCaseOnce(vs, ws[0], ws[1..]);
      assert [ws[0]] + ws[1..] == ws;
    }
  }

  lemma NoCaseFound(vs: seq<Field<Option<InferredType>>>)
    ensures FoundCases(vs, []) == 0
    decreases |vs|
  {
    if vs != [] {
      NoCaseFound(vs[1..]);
    }
  }

  // ---------- unification of one type ----------

  /** Making the alternatives of a type into one does not make it larger. */
  lemma {:induction false} TrySize(t: InferredType)
    requires hide *; Meets(NamesApart, t) && TryUnify(t).Ok?
    ensures Nodes(TryUnify(t).value) <= Nodes(t)
    decreases Height(t), 0, 0
  {
    hide TryUnifyAll, TryUnifyFields, TryUnifyCases, TryUnifyMaybe, UnifyFrom, AllMeet, FieldsMeet, CasesMeet,
         NoRepeats, NamesOf, Flatten, NodesAll, NodesFields, NodesCases, NodesMaybe;
    match t.inner
    case TAllOf(ts) =>
      FlattenMeets(NamesApart, ts);
      FlattenNodes(ts);
      FromSize(UNKNOWN, Flatten(ts));
    case TOption(s) => TrySize(s);
    case TResult(ok, error) =>
      TryMaybeSize(ok);
      TryMaybeSize(error);
    case TRecord(fs) => TryFieldsSize(fs);
    case TTuple(ts) => TryAllSize(ts);
    case TList(e) => TrySize(e);
    case TRange(from, to) =>
      TrySize(from);
      TryMaybeSize(to);
    case TVariant(vs) => TryCasesSize(vs);
    case _ =>
  }

  lemma {:induction false} TryMaybeSize(t: Option<InferredType>)
    requires hide *; MaybeMeets(NamesApart, t) && TryUnifyMaybe(t).Ok?
    ensures NodesMaybe(TryUnifyMaybe(t).value) <= NodesMaybe(t)
    decreases HeightMaybe(t), 1, 0
  {
    hide TryUnify, Meets, Height, Nodes;
    if t.Some? {
      TrySize(t.value);
    }
  }

  lemma {:induction false} TryAllSize(ts: seq<InferredType>)
    requires hide *; AllMeet(NamesApart, ts) && TryUnifyAll(ts).Ok?
    ensures NodesAll(TryUnifyAll(ts).value) <= NodesAll(ts)
    decreases Highest(ts), 1, |ts|
  {
    hide TryUnify, Meets, Height, Nodes;
    if ts != [] {
      TrySize(ts[0]);
      TryAllSize(ts[1..]);
      var v, vs := TryUnify(ts[0]).value, TryUnifyAll(ts[1..]).value;
      assert ([v] + vs)[1..] == vs;
    }
  }

  lemma {:induction false} TryFieldsSize(fs: seq<Field<InferredType>>)
    requires hide *; FieldsMeet(NamesApart, fs) && TryUnifyFields(fs).Ok?
    ensures NodesFields(TryUnifyFields(fs).value) <= NodesFields(fs)
    decreases HighestField(fs), 1, |fs|
  {
    hide TryUnify, Meets, Height, HighestField, Nodes;
    if fs != [] {
      FieldsWeigh(fs);
      TrySize(fs[0].of);
      TryFieldsSize(fs[1..]);
      var v, vs := Field(fs[0].name, TryUnify(fs[0].of).value), TryUnifyFields(fs[1..]).value;
      assert ([v] + vs)[1..] == vs;
    }
  }

  lemma {:induction false} TryCasesSize(vs: seq<Field<Option<InferredType>>>)
    requires hide *; CasesMeet(NamesApart, vs) && TryUnifyCases(vs).Ok?
    ensures NodesCases(TryUnifyCases(vs).value) <= NodesCases(vs)
    decreases HighestCase(vs), 2, |vs|
  {
    hide TryUnifyMaybe, MaybeMeets, Height, NodesMaybe;
    if vs != [] {
      TryMaybeSize(vs[0].of);
      TryCasesSize(vs[1..]);
      var v, us := Field(vs[0].name, TryUnifyMaybe(vs[0].of).value), TryUnifyCases(vs[1..]).value;
      assert ([v] + us)[1..] == us;
    }
  }

  lemma {:induction false} FromSize(acc: InferredType, ts: seq<InferredType>)
    requires hide *; !acc.inner.TAllOf? && forall t :: t in ts ==> !t.inner.TAllOf?
    requires Meets(NamesApart, acc) && AllMeet(NamesApart, ts) && UnifyFrom(acc, ts).Ok?
    ensures Nodes(UnifyFrom(acc, ts).value) <= Nodes(acc) + NodesAll(ts)
    decreases Height(acc) + Total(ts), 2, |ts|
  {
    hide TryUnify, UnifyBoth, Meets, Height, Nodes;
    if ts != [] {
      assert ts[0] in ts;
      var u := TryUnify(ts[0]);
      if u.Ok? {
        TryMeets(NamesApart, ts[0]);
        TrySize(ts[0]);
      }
      var next := if u.Ok? then u.value else ts[0];
      BothMeets(NamesApart, acc, next);
      BothSize(acc, next);
      FromSize(UnifyBoth(acc, next).value, ts[1..]);
    }
  }

  // ---------- unification of two types ----------

  /** Two types unify to a type no larger than the two together. */
  lemma {:induction false} BothSize(l: InferredType, r: InferredType)
    requires hide *; Meets(NamesApart, l) && Meets(NamesApart, r) && UnifyBoth(l, r).Ok?
    ensures Nodes(UnifyBoth(l, r).value) <= Nodes(l) + Nodes(r)
    decreases Height(l) + Height(r), 1, 0
  {
    hide TryUnify, UnifyParts, Meets, Height, ShapeOf, Nodes;
    if !r.inner.TUnknown? && !l.inner.TUnknown? && !Same(l, r) {
      TryMeets(NamesApart, l);
      TryMeets(NamesApart, r);
      TrySize(l);
      TrySize(r);
      PartsSize(TryUnify(l).value, TryUnify(r).value);
    }
  }

  lemma {:induction false} PartsSize(l: InferredType, r: InferredType)
    requires hide *; !l.inner.TAllOf? && !r.inner.TAllOf?
    requires Meets(NamesApart, l) && Meets(NamesApart, r) && UnifyParts(l, r).Ok?
    ensures Nodes(UnifyParts(l, r).value) <= Nodes(l) + Nodes(r)
    decreases Height(l) + Height(r), 0, 2
  {
    hide UnifyRecords, UnifyPairs, UnifyBoth, UnifyCases, UnifyMoreParts, AllMeet, FieldsMeet, CasesMeet, NoRepeats,
         NamesOf, NodesAll, NodesFields, NodesCases, NodesMaybe, Highest, HighestCase;
    if l.inner.TRecord? && r.inner.TRecord? {
      RecordsSize(l.inner.fields, r.inner.fields);
    } else if l.inner.TTuple? && r.inner.TTuple? {
      PairsSize(l.inner.items, r.inner.items);
    } else if l.inner.TList? && r.inner.TList? {
      BothSize(l.inner.elem, r.inner.elem);
    } else if l.inner.TOption? && r.inner.TOption? {
      BothSize(l.inner.some, r.inner.some);
    } else if l.inner.TVariant? && r.inner.TVariant? {
      CasesSize(l.inner.variants, r.inner.variants);
      FoundCasesBelow(l.inner.variants, r.inner.variants);
    } else {
      MorePartsSize(l, r);
    }
  }

  lemma {:induction false} MorePartsSize(l: InferredType, r: InferredType)
    requires hide *; !l.inner.TAllOf? && !r.inner.TAllOf?
    requires Meets(NamesApart, l) && Meets(NamesApart, r) && UnifyMoreParts(l, r).Ok?
    ensures Nodes(UnifyMoreParts(l, r).value) <= Nodes(l) + Nodes(r)
    decreases Height(l) + Height(r), 0, 1
  {
    hide UnifyRanges, UnifyResults, UnifyOption, UnifyRest, AllMeet, FieldsMeet, CasesMeet, NodesAll, NodesFields,
         NodesCases, NodesMaybe, ShapeOf, NoRepeats, Highest;
    if l.inner.TFlags? && r.inner.TFlags? {
    } else if l.inner.TRange? && r.inner.TRange? {
      RangesSize(l.inner.from, l.inner.to, r.inner.from, r.inner.to);
    } else if l.inner.TResult? && r.inner.TResult? {
      ResultsSize(l.inner.ok, l.inner.error, r.inner.ok, r.inner.error);
    } else if (l.inner.TEnum? && r.inner.TEnum?) || (l.inner.TResource? && r.inner.TResource?) {
    } else if l.inner.TOption? {
      OptionSize(l.inner.some, r);
    } else if r.inner.TOption? {
      OptionSize(r.inner.some, l);
    }
  }

  lemma {:induction false} OptionSize(a: InferredType, other: InferredType)
    requires hide *;
             !other.inner.TAllOf? && Meets(NamesApart, a) && Meets(NamesApart, other) && UnifyOption(a, other).Ok?
    ensures Nodes(UnifyOption(a, other).value) <= 1 + Nodes(a) + Nodes(other)
    decreases Height(a) + Height(other), 2, 0
  {
    hide TryUnify, UnifyBoth, Validate, Height, Meets, Nodes;
    TryMeets(NamesApart, a);
    TryMeets(NamesApart, other);
    TrySize(a);
    TrySize(other);
    var x, y := TryUnify(a).value, TryUnify(other).value;
    ValidMeets(NamesApart, x);
    ValidMeets(NamesApart, y);
    ValidHeight(x);
    ValidHeight(y);
    ValidNodes(x);
    ValidNodes(y);
    BothSize(Validate(x).value, Validate(y).value);
    OptionNodes(UnifyBoth(Validate(x).value, Validate(y).value).value);
  }

  lemma OptionNodes(t: InferredType)
    ensures Nodes(Plain(TOption(t))) == 1 + Nodes(t)
  {
  }

  lemma {:induction false} MaybeSize(a: Option<InferredType>, b: Option<InferredType>)
    requires hide *; MaybeMeets(NamesApart, a) && MaybeMeets(NamesApart, b) && UnifyMaybe(a, b).Ok?
    ensures NodesMaybe(UnifyMaybe(a, b).value) <= NodesMaybe(a) + NodesMaybe(b)
    decreases HeightMaybe(a) + HeightMaybe(b), 2, 0
  {
    hide UnifyBoth, Meets, Height, Nodes;
    if a.Some? && b.Some? {
      BothSize(a.value, b.value);
    }
  }

  lemma {:induction false} RangesSize(from: InferredType, to: Option<InferredType>, from2: InferredType,
                                      to2: Option<InferredType>)
    requires hide *;
             Meets(NamesApart, from) && Meets(NamesApart, from2) && MaybeMeets(NamesApart, to) && MaybeMeets(NamesApart, to2)
    requires UnifyRanges(from, to, from2, to2).Ok?
    ensures Nodes(UnifyRanges(from, to, from2, to2).value) <= 1 + Nodes(from) + NodesMaybe(to) + Nodes(from2) + NodesMaybe(to2)
    decreases Max(Height(from), HeightMaybe(to)) + Max(Height(from2), HeightMaybe(to2)), 3, 0
  {
    hide UnifyBoth, UnifyMaybe, Height, Meets, NodesMaybe;
    BothSize(from, from2);
    MaybeSize(to, to2);
    RangeNodes(UnifyBoth(from, from2).value, UnifyMaybe(to, to2).value);
  }

  lemma RangeNodes(from: InferredType, to: Option<InferredType>)
    ensures Nodes(Plain(TRange(from, to))) == 1 + Nodes(from) + NodesMaybe(to)
  {
  }

  lemma {:induction false} ResultsSize(ok: Option<InferredType>, error: Option<InferredType>, ok2: Option<InferredType>,
                                       error2: Option<InferredType>)
    requires hide *;
             MaybeMeets(NamesApart, ok) && MaybeMeets(NamesApart, ok2) && MaybeMeets(NamesApart, error) && MaybeMeets(NamesApart, error2)
    requires UnifyResults(ok, error, ok2, error2).Ok?
    ensures Nodes(UnifyResults(ok, error, ok2, error2).value)
            <= 1 + NodesMaybe(ok) + NodesMaybe(error) + NodesMaybe(ok2) + NodesMaybe(error2)
    decreases Max(HeightMaybe(ok), HeightMaybe(error)) + Max(HeightMaybe(ok2), HeightMaybe(error2)), 3, 0
  {
    hide UnifyMaybe, Height, MaybeMeets, NodesMaybe, Nodes;
    MaybeSize(ok, ok2);
    MaybeSize(error, error2);
    ResultNodes(UnifyMaybe(ok, ok2).value, UnifyMaybe(error, error2).value);
  }

  lemma ResultNodes(ok: Option<InferredType>, error: Option<InferredType>)
    ensures Nodes(Plain(TResult(ok, error))) == 1 + NodesMaybe(ok) + NodesMaybe(error)
  {
  }

  lemma {:induction false} PairsSize(ts: seq<InferredType>, vs: seq<InferredType>)
    requires hide *; |ts| == |vs| && AllMeet(NamesApart, ts) && AllMeet(NamesApart, vs) && UnifyPairs(ts, vs).Ok?
    ensures NodesAll(UnifyPairs(ts, vs).value) <= NodesAll(ts) + NodesAll(vs)
    decreases Highest(ts) + Highest(vs), 2, |ts|
  {
    hide UnifyBoth, Meets, Height, Nodes;
    if ts != [] {
      BothSize(ts[0], vs[0]);
      PairsSize(ts[1..], vs[1..]);
      var u, us := UnifyBoth(ts[0], vs[0]).value, UnifyPairs(ts[1..], vs[1..]).value;
      assert ([u] + us)[1..] == us;
    }
  }

  lemma {:induction false} FieldsSize(fs: seq<Field<InferredType>>, gs: seq<Field<InferredType>>)
    requires hide *; FieldsMeet(NamesApart, fs) && FieldsMeet(NamesApart, gs) && UnifyFields(fs, gs).Ok?
    ensures NodesFields(UnifyFields(fs, gs).value) <= NodesFields(fs) + FoundFields(fs, gs)
    decreases HighestField(fs) + HighestField(gs), 2, |fs|
  {
    hide UnifyBoth, Meets, Height, HighestField, Nodes, FindField;
    if fs != [] {
      FieldsWeigh(fs);
      var g := FindField(gs, fs[0].name);
      FindFieldMeets(NamesApart, gs, fs[0].name);
      if g.Some? {
        BothSize(fs[0].of, g.value);
      }
      FieldsSize(fs[1..], gs);
      var u := if g.Some? then UnifyBoth(fs[0].of, g.value).value else fs[0].of;
      var v, us := Field(fs[0].name, u), UnifyFields(fs[1..], gs).value;
      assert ([v] + us)[1..] == us;
    }
  }

  lemma {:induction false} RecordsSize(fs: seq<Field<InferredType>>, gs: seq<Field<InferredType>>)
    requires hide *;
             NoRepeats(NamesOf(fs)) && FieldsMeet(NamesApart, fs) && FieldsMeet(NamesApart, gs) && UnifyRecords(fs, gs).Ok?
    ensures Nodes(UnifyRecords(fs, gs).value) <= 1 + NodesFields(fs) + NodesFields(gs)
    decreases HighestField(fs) + HighestField(gs), 3, 0
  {
    hide UnifyFields, OnlyIn, FieldsMeet, Height, NoRepeats, NodesFields, FoundFields, NamesOf;
    FieldsSize(fs, gs);
    FoundAndOnly(fs, gs);
    FieldNodesAppend(UnifyFields(fs, gs).value, OnlyIn(gs, fs));
    RecordNodes(UnifyFields(fs, gs).value + OnlyIn(gs, fs));
  }

  lemma RecordNodes(fs: seq<Field<InferredType>>)
    ensures Nodes(Plain(TRecord(fs))) == 1 + NodesFields(fs)
  {
  }

  lemma {:induction false} CasesSize(vs: seq<Field<Option<InferredType>>>, ws: seq<Field<Option<InferredType>>>)
    requires hide *; CasesMeet(NamesApart, vs) && CasesMeet(NamesApart, ws) && UnifyCases(vs, ws).Ok?
    ensures NodesCases(UnifyCases(vs, ws).value) <= NodesCases(vs) + FoundCases(vs, ws)
    decreases HighestCase(vs) + HighestCase(ws), 2, |vs|
  {
    hide UnifyBoth, Meets, Height, Nodes;
    if vs != [] {
      var w := FindCase(ws, vs[0].name);
      FindCaseMeets(NamesApart, ws, vs[0].name);
      CasesSize(vs[1..], ws);
      if w.Some? {
        var both := vs[0].of.Some? && w.value.Some?;
        if both {
          BothSize(vs[0].of.value, w.value.value);
        }
        var v := Field(vs[0].name, if both then Some(UnifyBoth(vs[0].of.value, w.value.value).value) else None);
        var us := UnifyCases(vs[1..], ws).value;
        assert ([v] + us)[1..] == us;
      }
    }
  }

  // ---------- the whole ----------

  /** A unified type is no larger than the type it comes from. */
  lemma UnifySize(t: InferredType)
    requires hide *; Meets(NamesApart, t) && Unify(t).Ok?
    ensures Nodes(Unify(t).value) <= Nodes(t)
  {
    hide TryUnify, Validate, Meets, Nodes;
    TrySize(t);
    ValidNodes(TryUnify(t).value);
  }

  // ---------- a record that repeats a name ----------

  const BOOL: InferredType := Plain(TBool)

  const FOUR: InferredType := Plain(TTuple([BOOL, BOOL, BOOL, BOOL]))

  const TWICE: InferredType := Plain(TRecord([Field("a", UNKNOWN), Field("a", UNKNOWN)]))

  const ONCE: InferredType := Plain(TRecord([Field("a", FOUR)]))

  lemma TryOne(f: Field<InferredType>, fs: seq<Field<InferredType>>)
    requires TryUnify(f.of) == Ok(f.of) && TryUnifyFields(fs) == Ok(fs)
    ensures TryUnifyFields([f] + fs) == Ok([f] + fs)
  {
    hide TryUnify, Height, HighestField;
    assert ([f] + fs)[0] == f && ([f] + fs)[1..] == fs;
  }

  lemma TryBools(n: nat)
    ensures hide *; TryUnifyAll(seq(n, _ => BOOL)) == Ok(seq(n, _ => BOOL))
  {
    hide TryUnifyCases, TryUnifyFields, TryUnifyMaybe, UnifyFrom;
    var ts := seq(n, _ => BOOL);
    if n > 0 {
      assert ts[1..] == seq(n - 1, _ => BOOL);
      TryBools(n - 1);
      assert [BOOL] + ts[1..] == ts;
    }
  }

  lemma TryFour()
    ensures TryUnify(FOUR) == Ok(FOUR)
  {
    hide TryUnifyAll, Height, TryUnifyCases, TryUnifyFields, TryUnifyMaybe, UnifyFrom, Flatten, HeightMaybe, Highest;
    TryBools(4);
    assert seq(4, _ => BOOL) == [BOOL, BOOL, BOOL, BOOL];
  }

  lemma ExamplesStay()
    ensures TryUnify(TWICE) == Ok(TWICE) && TryUnify(ONCE) == Ok(ONCE)
  {
    hide TryUnifyFields, TryUnifyAll, Height, UnifyFrom, Total;
    var a := Field("a", UNKNOWN);
    NoFields();
    TryOne(a, []);
    assert [a] + [] == [a] && [a] + [a] == [a, a];
    TryOne(a, [a]);
    TryFour();
    TryOne(Field("a", FOUR), []);
    assert [Field("a", FOUR)] + [] == [Field("a", FOUR)];
  }

  lemma NoFields()
    ensures TryUnifyFields([]) == Ok([])
  {
    hide TryUnify, Height;
  }

  lemma ExamplesUnify()
    ensures UnifyBoth(TWICE, ONCE) == Ok(Plain(TRecord([Field("a", FOUR), Field("a", FOUR)])))
  {
    hide TryUnify, Height, HighestField, ShapeOf, UnifyMoreParts, Same, Max;
    ExamplesStay();
    ExamplesDiffer();
    var a, b, gs := Field("a", UNKNOWN), Field("a", FOUR), [Field("a", FOUR)];
    UnknownGivesWay();
    assert [a][1..] == [] && [a, a][1..] == [a];
    FieldTakes([], gs);
    FieldTakes([a], gs);
    assert [a] + [] == [a] && [a] + [a] == [a, a] && [b] + [] == [b] && [b] + [b] == [b, b];
    NothingLeft(a, FOUR);
    assert [b, b] + [] == [b, b];
    assert UnifyRecords([a, a], gs) == Ok(Plain(TRecord([b, b])));
  }

  lemma UnknownGivesWay()
    ensures UnifyBoth(UNKNOWN, FOUR) == Ok(FOUR) && UnifyFields([], [Field("a", FOUR)]) == Ok([])
  {
    hide TryUnify, UnifyParts, Same, HighestField, Height;
  }

  lemma FieldTakes(fs: seq<Field<InferredType>>, gs: seq<Field<InferredType>>)
    requires hide *; gs == [Field("a", FOUR)] && UnifyFields(fs, gs).Ok?
    ensures UnifyFields([Field("a", UNKNOWN)] + fs, gs) == Ok([Field("a", FOUR)] + UnifyFields(fs, gs).value)
  {
    hide UnifyBoth, Height, HighestField;
    UnknownGivesWay();
    assert ([Field("a", UNKNOWN)] + fs)[1..] == fs;
  }

  lemma NothingLeft(a: Field<InferredType>, t: InferredType)
    requires a.name == "a"
    ensures OnlyIn([Field("a", t)], [a, a]) == []
  {
    assert [Field("a", t)][1..] == [];
  }

  lemma ExamplesDiffer()
    ensures !Same(TWICE, ONCE)
  {
  }

  lemma BoolNodes(n: nat)
    ensures hide *; NodesAll(seq(n, _ => BOOL)) == n
  {
    var ts := seq(n, _ => BOOL);
    if n > 0 {
      assert ts[1..] == seq(n - 1, _ => BOOL);
      BoolNodes(n - 1);
    }
  }

  lemma OneMoreField(f: Field<InferredType>, fs: seq<Field<InferredType>>)
    ensures NodesFields([f] + fs) == Nodes(f.of) + NodesFields(fs)
  {
    assert ([f] + fs)[0] == f && ([f] + fs)[1..] == fs;
  }

  lemma ExampleSizes()
    ensures Nodes(FOUR) == 5 && Nodes(TWICE) == 3 && Nodes(ONCE) == 6
    ensures Nodes(Plain(TRecord([Field("a", FOUR), Field("a", FOUR)]))) == 11
  {
    hide NodesAll;
    BoolNodes(4);
    assert seq(4, _ => BOOL) == [BOOL, BOOL, BOOL, BOOL];
    assert Nodes(FOUR) == 5;
    var a, b := Field("a", UNKNOWN), Field("a", FOUR);
    OneMoreField(a, []);
    OneMoreField(b, []);
    assert [a] + [] == [a] && [b] + [] == [b] && [a] + [a] == [a, a] && [b] + [b] == [b, b];
    OneMoreField(a, [a]);
    OneMoreField(b, [b]);
    RecordNodes([a, a]);
    RecordNodes([b]);
    RecordNodes([b, b]);
  }

  lemma TwiceRepeats()
    ensures !Meets(NamesApart, TWICE)
  {
    var fs := [Field("a", UNKNOWN), Field("a", UNKNOWN)];
    assert fs[1..] == [fs[1]];
    assert NamesOf(fs) == ["a"] + NamesOf(fs[1..]);
    TailApart("a", NamesOf(fs[1..]));
    assert NamesOf(fs[1..])[0] == "a";
  }

  /** Both fields of that name take the type of the other record, so the result is larger than the two records. */
  lemma RepeatedNameGrows()
    ensures hide *; !Meets(NamesApart, TWICE) && UnifyBoth(TWICE, ONCE).Ok?
    ensures Nodes(UnifyBoth(TWICE, ONCE).value) == 11 && Nodes(TWICE) + Nodes(ONCE) == 9
  {
    hide Meets, UnifyBoth, Nodes;
    TwiceRepeats();
    ExamplesUnify();
    ExampleSizes();
  }

  // ===== Unification does not prefer a side.

  // ---------- types without order ----------

  /** Fields and cases by name, flags as a set; alternatives and sequences stay shapes. */
  datatype Loose =
    | LShape(shape: Shape)
    | LFlags(names: set<string>)
    | LList(elem: Loose)
    | LTuple(items: seq<Loose>)
    | LRecord(fields: map<string, Loose>)
    | LOption(some: Loose)
    | LResult(ok: Option<Loose>, error: Option<Loose>)
    | LVariant(cases: map<string, Option<Loose>>)
    | LRange(from: Loose, to: Option<Loose>)

  function Loosen(s: Shape): Loose
    decreases s
  {
    hide *;
    match s
    case SList(e) => LList(Loosen(e))
    case STuple(items) => LTuple(LoosenAll(items))
    case SRecord(fs) => LRecord(LoosenFields(fs))
    case SOption(x) => LOption(Loosen(x))
    case SResult(ok, error) => LResult(LoosenMaybe(ok), LoosenMaybe(error))
    case SVariant(vs) => LVariant(LoosenCases(vs))
    case SRange(from, to) => LRange(Loosen(from), LoosenMaybe(to))
    case SLeaf(t) => if t.TFlags? then LFlags(set n | n in t.flags) else LShape(s)
    case _ => LShape(s)
  }

  function LoosenMaybe(s: Option<Shape>): Option<Loose>
    decreases s
  {
    hide *;
    if s.Some? then Some(Loosen(s.value)) else None
  }

  function LoosenAll(ss: seq<Shape>): (r: seq<Loose>)
    ensures hide *; |r| == |ss|
    decreases ss
  {
    if ss == [] then [] else [Loosen(ss[0])] + LoosenAll(ss[1..])
  }

  function LoosenFields(fs: seq<Field<Shape>>): map<string, Loose>
    decreases fs
  {
    hide *;
    if fs == [] then map[] else LoosenFields(fs[1..])[fs[0].name := Loosen(fs[0].of)]
  }

  function LoosenCases(vs: seq<Field<Option<Shape>>>): map<string, Option<Loose>>
    decreases vs
  {
    hide *;
    if vs == [] then map[] else LoosenCases(vs[1..])[vs[0].name := LoosenMaybe(vs[0].of)]
  }

  function LooseOf(t: InferredType): Loose { Loosen(ShapeOf(t)) }

  function LooseMaybe(t: Option<InferredType>): Option<Loose> { hide *; if t.Some? then Some(LooseOf(t.value)) else None }

  /** Equal up to origins and up to the order of fields, cases and flags. */
  predicate Alike(a: InferredType, b: InferredType) { LooseOf(a) == LooseOf(b) }

  /** Both fail or both succeed with such types. */
  predicate Agrees(u: Unified, v: Unified) {
    hide *;
    u.Ok? == v.Ok? && (u.Ok? ==> Alike(u.value, v.value))
  }

  // ---------- records and variants by name ----------

  function LooseFieldsOf(fs: seq<Field<InferredType>>): map<string, Loose> { LoosenFields(FieldShapes(fs)) }

  function LooseCasesOf(vs: seq<Field<Option<InferredType>>>): map<string, Option<Loose>> { LoosenCases(CaseShapes(vs)) }

  lemma FieldByName(fs: seq<Field<InferredType>>, n: string)
    ensures hide *; n in LooseFieldsOf(fs) <==> FindField(fs, n).Some?
    ensures FindField(fs, n).Some? ==> LooseFieldsOf(fs)[n] == LooseOf(FindField(fs, n).value)
  {
    hide ShapeOf, Loosen, Height;
    if fs != [] {
      assert FieldShapes(fs) == [Field(fs[0].name, ShapeOf(fs[0].of))] + FieldShapes(fs[1..]);
      FieldByName(fs[1..], n);
    }
  }

  lemma CaseByName(vs: seq<Field<Option<InferredType>>>, n: string)
    ensures hide *; n in LooseCasesOf(vs) <==> FindCase(vs, n).Some?
    ensures FindCase(vs, n).Some? ==> LooseCasesOf(vs)[n] == LooseMaybe(FindCase(vs, n).value)
  {
    hide ShapeOf, Loosen, Height;
    if vs != [] {
      assert CaseShapes(vs) == [Field(vs[0].name, CaseShape(vs[0].of))] + CaseShapes(vs[1..]);
      assert LoosenMaybe(CaseShape(vs[0].of)) == LooseMaybe(vs[0].of);
      CaseByName(vs[1..], n);
    }
  }

  /** What a record unified with another one has under a name. */
  function FieldUnified(fs: seq<Field<InferredType>>, gs: seq<Field<InferredType>>, n: string): Option<Unified> {
    hide *;
    var f, g := FindField(fs, n), FindField(gs, n);
    if f.Some? && g.Some? then Some(UnifyBoth(f.value, g.value))
    else if f.Some? then Some(Ok(f.value))
    else if g.Some? then Some(Ok(g.value))
    else None
  }

  lemma FoundAppend(a: seq<Field<InferredType>>, b: seq<Field<InferredType>>, n: string)
    ensures FindField(a + b, n) == if FindField(a, n).Some? then FindField(a, n) else FindField(b, n)
  {
    hide Height;
    if a == [] {
      assert a + b == b;
    } else {
      assert (a + b)[1..] == a[1..] + b;
      FoundAppend(a[1..], b, n);
    }
  }

  lemma FoundOnlyIn(gs: seq<Field<InferredType>>, fs: seq<Field<InferredType>>, n: string)
    ensures FindField(OnlyIn(gs, fs), n) == if FindField(fs, n).Some? then None else FindField(gs, n)
  {
    hide Height;
    if gs != [] {
      FoundOnlyIn(gs[1..], fs, n);
      var rest := OnlyIn(gs[1..], fs);
      if FindField(fs, gs[0].name).None? {
        assert ([gs[0]] + rest)[1..] == rest && OnlyIn(gs, fs) == [gs[0]] + rest;
      } else {
        assert OnlyIn(gs, fs) == rest;
      }
    }
  }

  lemma {:induction false} FoundUnified(fs: seq<Field<InferredType>>, gs: seq<Field<InferredType>>, n: string)
    requires hide Height, HighestField, UnifyBoth, UnifyFields; UnifyFields(fs, gs).Ok?
    ensures var us := UnifyFields(fs, gs).value;
            if FindField(fs, n).None? then FindField(us, n).None?
            else FieldUnified(fs, gs, n).value.Ok? && FindField(us, n) == Some(FieldUnified(fs, gs, n).value.value)
    decreases |fs|
  {
    hide UnifyBoth, Height, HighestField;
    if fs != [] {
      FoundUnified(fs[1..], gs, n);
      var g := FindField(gs, fs[0].name);
      var u := if g.Some? then UnifyBoth(fs[0].of, g.value).value else fs[0].of;
      var v, us := Field(fs[0].name, u), UnifyFields(fs[1..], gs).value;
      assert ([v] + us)[1..] == us;
    }
  }

  /** Records fail to unify exactly if the types under some name do. */
  lemma {:induction false} FieldsFail(fs: seq<Field<InferredType>>, gs: seq<Field<InferredType>>) returns (n: string)
    requires hide Height, HighestField, UnifyBoth, UnifyFields; NoRepeats(NamesOf(fs)) && UnifyFields(fs, gs).Err?
    ensures FindField(fs, n).Some? && FindField(gs, n).Some? && FieldUnified(fs, gs, n).value.Err?
    decreases |fs|
  {
    hide UnifyBoth, Height, HighestField;
    var g := FindField(gs, fs[0].name);
    if g.Some? && UnifyBoth(fs[0].of, g.value).Err? {
      n := fs[0].name;
    } else {
      TailApart(fs[0].name, NamesOf(fs[1..]));
      n := FieldsFail(fs[1..], gs);
      NamedFound(fs[1..], n);
    }
  }

  lemma RecordByName(fs: seq<Field<InferredType>>, gs: seq<Field<InferredType>>, n: string)
    requires hide *; UnifyRecords(fs, gs).Ok?
    ensures var all := UnifyRecords(fs, gs).value.inner.fields;
            match FieldUnified(fs, gs, n)
            case None => FindField(all, n).None?
            case Some(u) => u.Ok? && FindField(all, n) == Some(u.value)
  {
    hide UnifyBoth, UnifyFields, OnlyIn, Height, HighestField;
    FoundUnified(fs, gs, n);
    FoundOnlyIn(gs, fs, n);
    FoundAppend(UnifyFields(fs, gs).value, OnlyIn(gs, fs), n);
  }

  lemma RecordFails(fs: seq<Field<InferredType>>, gs: seq<Field<InferredType>>) returns (n: string)
    requires hide UnifyBoth, UnifyFields, OnlyIn, Joined; NoRepeats(NamesOf(fs)) && UnifyRecords(fs, gs).Err?
    ensures FindField(fs, n).Some? && FindField(gs, n).Some? && FieldUnified(fs, gs, n).value.Err?
  {
    hide UnifyBoth, UnifyFields, OnlyIn, Height, HighestField;
    n := FieldsFail(fs, gs);
  }

  // ---------- variants ----------

  function CaseUnified(vs: seq<Field<Option<InferredType>>>, ws: seq<Field<Option<InferredType>>>, n: string)
      : Option<Result<Option<InferredType>, UnifyError>> {
    hide *;
    var v, w := FindCase(vs, n), FindCase(ws, n);
    if v.None? || w.None? then None
    else if v.value.None? || w.value.None? then Some(Ok(None))
    else
      var u := UnifyBoth(v.value.value, w.value.value);
      Some(if u.Ok? then Ok(Some(u.value)) else Err(u.error))
  }

  lemma CasesTail(v: Field<Option<InferredType>>, us: seq<Field<Option<InferredType>>>, n: string)
    ensures FindCase([v] + us, n) == if v.name == n then Some(v.of) else FindCase(us, n)
  {
    hide Height;
    assert ([v] + us)[1..] == us;
  }

  lemma {:induction false} CaseInUnified(vs: seq<Field<Option<InferredType>>>, ws: seq<Field<Option<InferredType>>>,
                                         n: string)
    requires hide *; UnifyCases(vs, ws).Ok?
    ensures var us := UnifyCases(vs, ws).value;
            match CaseUnified(vs, ws, n)
            case None => FindCase(us, n).None?
            case Some(u) => u.Ok? && FindCase(us, n) == Some(u.value)
    decreases |vs|
  {
    hide UnifyBoth, Height, HighestCase;
    if vs != [] {
      var w := FindCase(ws, vs[0].name);
      CaseInUnified(vs[1..], ws, n);
      if w.Some? {
        var both := vs[0].of.Some? && w.value.Some?;
        var v := Field(vs[0].name, if both then Some(UnifyBoth(vs[0].of.value, w.value.value).value) else None);
        CasesTail(v, UnifyCases(vs[1..], ws).value, n);
      }
    }
  }

  lemma CaseNamed(vs: seq<Field<Option<InferredType>>>, n: string)
    ensures FindCase(vs, n).Some? <==> n in NamesOf(vs)
  {
    hide Height;
  }

  lemma {:induction false} CasesFail(vs: seq<Field<Option<InferredType>>>,
                                     ws: seq<Field<Option<InferredType>>>) returns (n: string)
    requires hide *; NoRepeats(NamesOf(vs)) && UnifyCases(vs, ws).Err?
    ensures CaseUnified(vs, ws, n).Some? && CaseUnified(vs, ws, n).value.Err?
    decreases |vs|
  {
    hide UnifyBoth, Height, HighestCase, NoRepeats;
    var w := FindCase(ws, vs[0].name);
    if w.Some? && vs[0].of.Some? && w.value.Some? && UnifyBoth(vs[0].of.value, w.value.value).Err? {
      n := vs[0].name;
    } else {
      TailApart(vs[0].name, NamesOf(vs[1..]));
      n := CasesFail(vs[1..], ws);
      CaseNamed(vs[1..], n);
    }
  }

  // ---------- parts without parts ----------

  lemma FlagsSymmetric(a: seq<string>, b: seq<string>)
    requires NoRepeats(a) && NoRepeats(b)
    ensures UnifyFlags(a, b).Some? == UnifyFlags(b, a).Some?
    ensures UnifyFlags(a, b).Some? ==> ToSet(UnifyFlags(a, b).value) == ToSet(UnifyFlags(b, a).value)
  {
    NamesCount(a);
    NamesCount(b);
    if |a| == |b| {
      if AllIn(b, a) {
        SubsetSame(ToSet(b), ToSet(a));
        assert forall x :: x in a ==> x in ToSet(a);
      }
      if AllIn(a, b) {
        SubsetSame(ToSet(a), ToSet(b));
        assert forall x :: x in b ==> x in ToSet(b);
      }
    }
  }

  lemma RestSymmetric(l: InferredType, r: InferredType)
    ensures Agrees(UnifyRest(l, r), UnifyRest(r, l))
  {
    hide ShapeOf, Loosen;
  }

  // ---------- symmetry ----------

  /** For types whose fields, cases and flags have names of their own, unification gives the same on both sides, up to
      the order of fields, cases and flags. */
  lemma {:induction false} UnifySymmetric(l: InferredType, r: InferredType)
    requires Meets(NamesApart, l) && Meets(NamesApart, r)
    ensures Agrees(UnifyBoth(l, r), UnifyBoth(r, l))
    decreases Height(l) + Height(r), 1, 0
  {
    hide TryUnify, UnifyParts, Meets, Height, ShapeOf, Loosen;
    if r.inner.TUnknown? && l.inner.TUnknown? {
      UnknownsAlike(l, r);
    } else if !r.inner.TUnknown? && !l.inner.TUnknown? && !Same(l, r) && TryUnify(l).Ok? && TryUnify(r).Ok? {
      TryMeets(NamesApart, l);
      TryMeets(NamesApart, r);
      PartsSymmetric(TryUnify(l).value, TryUnify(r).value);
    }
  }

  lemma UnknownsAlike(l: InferredType, r: InferredType)
    requires l.inner.TUnknown? && r.inner.TUnknown?
    ensures Alike(l, r)
  {
  }

  lemma {:induction false} PartsSymmetric(l: InferredType, r: InferredType)
    requires hide *; !l.inner.TAllOf? && !r.inner.TAllOf? && Meets(NamesApart, l) && Meets(NamesApart, r)
    ensures Agrees(UnifyParts(l, r), UnifyParts(r, l))
    decreases Height(l) + Height(r), 0, 2
  {
    hide UnifyRecords, UnifyPairs, UnifyBoth, UnifyCases, UnifyMoreParts, AllMeet, FieldsMeet, CasesMeet, NoRepeats,
         NamesOf, LoosenAll, LoosenFields, LoosenCases, ShapesOf, FieldShapes, CaseShapes, HighestCase, Highest;
    if l.inner.TRecord? && r.inner.TRecord? {
      RecordsSymmetric(l.inner.fields, r.inner.fields);
    } else if l.inner.TTuple? && r.inner.TTuple? {
      if |l.inner.items| == |r.inner.items| {
        PairsSymmetric(l.inner.items, r.inner.items);
      }
    } else if l.inner.TList? && r.inner.TList? {
      UnifySymmetric(l.inner.elem, r.inner.elem);
    } else if l.inner.TOption? && r.inner.TOption? {
      UnifySymmetric(l.inner.some, r.inner.some);
    } else if l.inner.TVariant? && r.inner.TVariant? {
      CasesSymmetric(l.inner.variants, r.inner.variants);
    } else {
      MorePartsSymmetric(l, r);
    }
  }

  lemma {:induction false} MorePartsSymmetric(l: InferredType, r: InferredType)
    requires hide *; !l.inner.TAllOf? && !r.inner.TAllOf? && Meets(NamesApart, l) && Meets(NamesApart, r)
    requires !(l.inner.TOption? && r.inner.TOption?)
    ensures Agrees(UnifyMoreParts(l, r), UnifyMoreParts(r, l))
    decreases Height(l) + Height(r), 0, 1
  {
    hide UnifyRanges, UnifyResults, UnifyOption, UnifyFlags, UnifyRest, AllMeet, FieldsMeet, CasesMeet, NoRepeats,
         NamesOf, LoosenAll, LoosenFields, LoosenCases, ShapesOf, FieldShapes, CaseShapes, Total, Highest;
    if l.inner.TFlags? && r.inner.TFlags? {
      FlagsSymmetric(l.inner.flags, r.inner.flags);
    } else if l.inner.TRange? && r.inner.TRange? {
      RangesSymmetric(l.inner.from, l.inner.to, r.inner.from, r.inner.to);
    } else if l.inner.TResult? && r.inner.TResult? {
      ResultsSymmetric(l.inner.ok, l.inner.error, r.inner.ok, r.inner.error);
    } else if (l.inner.TEnum? && r.inner.TEnum?) || (l.inner.TResource? && r.inner.TResource?) {
    } else if !l.inner.TOption? && !r.inner.TOption? {
      RestSymmetric(l, r);
    }
  }

  predicate MaybeAgrees(u: Result<Option<InferredType>, UnifyError>, v: Result<Option<InferredType>, UnifyError>) {
    hide *;
    u.Ok? == v.Ok? && (u.Ok? ==> LooseMaybe(u.value) == LooseMaybe(v.value))
  }

  lemma {:induction false} MaybeSymmetric(a: Option<InferredType>, b: Option<InferredType>)
    requires MaybeMeets(NamesApart, a) && MaybeMeets(NamesApart, b)
    ensures MaybeAgrees(UnifyMaybe(a, b), UnifyMaybe(b, a))
    decreases HeightMaybe(a) + HeightMaybe(b), 2, 0
  {
    hide UnifyBoth, Meets, Height, ShapeOf, Loosen;
    if a.Some? && b.Some? {
      UnifySymmetric(a.value, b.value);
    }
  }

  lemma {:induction false} RangesSymmetric(from: InferredType, to: Option<InferredType>, from2: InferredType,
                                           to2: Option<InferredType>)
    requires Meets(NamesApart, from) && Meets(NamesApart, from2) && MaybeMeets(NamesApart, to) && MaybeMeets(NamesApart, to2)
    ensures Agrees(UnifyRanges(from, to, from2, to2), UnifyRanges(from2, to2, from, to))
    decreases Max(Height(from), HeightMaybe(to)) + Max(Height(from2), HeightMaybe(to2)), 3, 0
  {
    hide UnifyBoth, UnifyMaybe, Height, Meets, LooseOf;
    UnifySymmetric(from, from2);
    MaybeSymmetric(to, to2);
    var f, g := UnifyBoth(from, from2), UnifyBoth(from2, from);
    var u, v := UnifyMaybe(to, to2), UnifyMaybe(to2, to);
    if f.Ok? && u.Ok? {
      RangeLoose(f.value, u.value);
      RangeLoose(g.value, v.value);
    }
  }

  lemma RangeLoose(from: InferredType, to: Option<InferredType>)
    ensures LooseOf(Plain(TRange(from, to))) == LRange(LooseOf(from), LooseMaybe(to))
  {
    assert ShapeOf(Plain(TRange(from, to))) == SRange(ShapeOf(from), CaseShape(to));
  }

  lemma ResultLoose(ok: Option<InferredType>, error: Option<InferredType>)
    ensures LooseOf(Plain(TResult(ok, error))) == LResult(LooseMaybe(ok), LooseMaybe(error))
  {
    assert ShapeOf(Plain(TResult(ok, error))) == SResult(CaseShape(ok), CaseShape(error));
  }

  lemma {:induction false} ResultsSymmetric(ok: Option<InferredType>, error: Option<InferredType>, ok2: Option<InferredType>,
                                            error2: Option<InferredType>)
    requires MaybeMeets(NamesApart, ok) && MaybeMeets(NamesApart, ok2) && MaybeMeets(NamesApart, error) && MaybeMeets(NamesApart, error2)
    ensures Agrees(UnifyResults(ok, error, ok2, error2), UnifyResults(ok2, error2, ok, error))
    decreases Max(HeightMaybe(ok), HeightMaybe(error)) + Max(HeightMaybe(ok2), HeightMaybe(error2)), 3, 0
  {
    hide UnifyMaybe, Height, MaybeMeets, LooseOf, HeightMaybe;
    MaybeSymmetric(ok, ok2);
    MaybeSymmetric(error, error2);
    var o, p := UnifyMaybe(ok, ok2), UnifyMaybe(ok2, ok);
    var e, f := UnifyMaybe(error, error2), UnifyMaybe(error2, error);
    if o.Ok? && e.Ok? {
      ResultLoose(o.value, e.value);
      ResultLoose(p.value, f.value);
    }
  }

  lemma {:induction false} PairsSymmetric(ts: seq<InferredType>, vs: seq<InferredType>)
    requires hide *; |ts| == |vs| && AllMeet(NamesApart, ts) && AllMeet(NamesApart, vs)
    ensures UnifyPairs(ts, vs).Ok? == UnifyPairs(vs, ts).Ok?
    ensures UnifyPairs(ts, vs).Ok? ==>
      LoosenAll(ShapesOf(UnifyPairs(ts, vs).value)) == LoosenAll(ShapesOf(UnifyPairs(vs, ts).value))
    decreases Highest(ts) + Highest(vs), 2, |ts|
  {
    hide UnifyBoth, Meets, Height, ShapeOf, Loosen, ShapesOf;
    if ts != [] {
      UnifySymmetric(ts[0], vs[0]);
      PairsSymmetric(ts[1..], vs[1..]);
      if UnifyPairs(ts, vs).Ok? {
        ConsLoose(UnifyBoth(ts[0], vs[0]).value, UnifyPairs(ts[1..], vs[1..]).value);
        ConsLoose(UnifyBoth(vs[0], ts[0]).value, UnifyPairs(vs[1..], ts[1..]).value);
      }
    }
  }

  lemma ConsLoose(t: InferredType, ts: seq<InferredType>)
    ensures LoosenAll(ShapesOf([t] + ts)) == [LooseOf(t)] + LoosenAll(ShapesOf(ts))
  {
    hide ShapeOf, Loosen;
    assert ([t] + ts)[1..] == ts;
    assert ([ShapeOf(t)] + ShapesOf(ts))[1..] == ShapesOf(ts);
  }

  lemma {:induction false} FieldSymmetric(fs: seq<Field<InferredType>>, gs: seq<Field<InferredType>>, n: string)
    requires hide *; FieldsMeet(NamesApart, fs) && FieldsMeet(NamesApart, gs)
    ensures FindField(fs, n).Some? && FindField(gs, n).Some? ==>
      Agrees(UnifyBoth(FindField(fs, n).value, FindField(gs, n).value), UnifyBoth(FindField(gs, n).value, FindField(fs, n).value))
    decreases HighestField(fs) + HighestField(gs), 2, 0
  {
    hide UnifyBoth, Meets, Height, ShapeOf, Loosen;
    FindFieldMeets(NamesApart, fs, n);
    FindFieldMeets(NamesApart, gs, n);
    if FindField(fs, n).Some? && FindField(gs, n).Some? {
      UnifySymmetric(FindField(fs, n).value, FindField(gs, n).value);
    }
  }

  lemma {:induction false} RecordsSymmetric(fs: seq<Field<InferredType>>, gs: seq<Field<InferredType>>)
    requires NoRepeats(NamesOf(fs)) && NoRepeats(NamesOf(gs)) && FieldsMeet(NamesApart, fs) && FieldsMeet(NamesApart, gs)
    ensures Agrees(UnifyRecords(fs, gs), UnifyRecords(gs, fs))
    decreases HighestField(fs) + HighestField(gs), 3, 0
  {
    hide UnifyBoth, UnifyRecords, FindField, FieldsMeet, NoRepeats, NamesOf, Height, HighestField, Loosen, ShapeOf;
    if UnifyRecords(fs, gs).Err? {
      var n := RecordFails(fs, gs);
      FieldSymmetric(fs, gs, n);
      if UnifyRecords(gs, fs).Ok? {
        RecordByName(gs, fs, n);
      }
    } else if UnifyRecords(gs, fs).Err? {
      var n := RecordFails(gs, fs);
      FieldSymmetric(fs, gs, n);
      RecordByName(fs, gs, n);
    } else {
      var a, b := UnifyRecords(fs, gs).value.inner.fields, UnifyRecords(gs, fs).value.inner.fields;
      forall n ensures FieldsAlike(a, b, n) {
        FieldSymmetric(fs, gs, n);
        RecordByName(fs, gs, n);
        RecordByName(gs, fs, n);
      }
      RecordsAlike(UnifyRecords(fs, gs).value, UnifyRecords(gs, fs).value);
    }
  }

  predicate FieldsAlike(a: seq<Field<InferredType>>, b: seq<Field<InferredType>>, n: string) {
    LooseMaybe(FindField(a, n)) == LooseMaybe(FindField(b, n))
  }

  lemma RecordsAlike(x: InferredType, y: InferredType)
    requires hide *; x.inner.TRecord? && y.inner.TRecord? && forall n :: FieldsAlike(x.inner.fields, y.inner.fields, n)
    ensures Alike(x, y)
  {
    hide LoosenFields, FieldShapes, FindField, LooseOf, ShapeOf, Height;
    var a, b := x.inner.fields, y.inner.fields;
    forall n ensures n in LooseFieldsOf(a) <==> n in LooseFieldsOf(b)
      ensures n in LooseFieldsOf(a) ==> LooseFieldsOf(a)[n] == LooseFieldsOf(b)[n]
    {
      FieldByName(a, n);
      FieldByName(b, n);
      assert FieldsAlike(a, b, n);
    }
    assert LooseFieldsOf(a) == LooseFieldsOf(b);
    RecordLoose(x);
    RecordLoose(y);
  }

  lemma RecordLoose(x: InferredType)
    requires hide *; x.inner.TRecord?
    ensures LooseOf(x) == LRecord(LooseFieldsOf(x.inner.fields))
  {
    hide LoosenFields, FieldShapes;
  }

  predicate CasesAlike(a: seq<Field<Option<InferredType>>>, b: seq<Field<Option<InferredType>>>, n: string) {
    hide *;
    var x, y := FindCase(a, n), FindCase(b, n);
    x.Some? == y.Some? && (x.Some? ==> LooseMaybe(x.value) == LooseMaybe(y.value))
  }

  lemma VariantsAlike(a: seq<Field<Option<InferredType>>>, b: seq<Field<Option<InferredType>>>)
    requires forall n :: CasesAlike(a, b, n)
    ensures LooseCasesOf(a) == LooseCasesOf(b)
  {
    hide LoosenCases, CaseShapes, FindCase, LooseOf, CaseShape, Height;
    forall n ensures n in LooseCasesOf(a) <==> n in LooseCasesOf(b)
      ensures n in LooseCasesOf(a) ==> LooseCasesOf(a)[n] == LooseCasesOf(b)[n]
    {
      CaseByName(a, n);
      CaseByName(b, n);
      assert CasesAlike(a, b, n);
    }
  }

  lemma {:induction false} CaseSymmetric(vs: seq<Field<Option<InferredType>>>, ws: seq<Field<Option<InferredType>>>,
                                         n: string)
    requires hide *; CasesMeet(NamesApart, vs) && CasesMeet(NamesApart, ws)
    ensures CaseUnified(vs, ws, n).Some? == CaseUnified(ws, vs, n).Some?
    ensures CaseUnified(vs, ws, n).Some? ==> MaybeAgrees(CaseUnified(vs, ws, n).value, CaseUnified(ws, vs, n).value)
    decreases HighestCase(vs) + HighestCase(ws), 2, 0
  {
    hide UnifyBoth, Meets, Height, ShapeOf, Loosen, LooseOf, CasesMeet, FindCase, HighestCase;
    FindCaseMeets(NamesApart, vs, n);
    FindCaseMeets(NamesApart, ws, n);
    var v, w := FindCase(vs, n), FindCase(ws, n);
    if v.Some? && w.Some? && v.value.Some? && w.value.Some? {
      UnifySymmetric(v.value.value, w.value.value);
    }
  }

  lemma {:induction false} CasesSymmetric(vs: seq<Field<Option<InferredType>>>, ws: seq<Field<Option<InferredType>>>)
    requires hide *;
             NoRepeats(NamesOf(vs)) && NoRepeats(NamesOf(ws)) && CasesMeet(NamesApart, vs) && CasesMeet(NamesApart, ws)
    ensures UnifyCases(vs, ws).Ok? == UnifyCases(ws, vs).Ok?
    ensures UnifyCases(vs, ws).Ok? ==> LooseCasesOf(UnifyCases(vs, ws).value) == LooseCasesOf(UnifyCases(ws, vs).value)
    decreases HighestCase(vs) + HighestCase(ws), 3, 0
  {
    hide UnifyBoth, UnifyCases, FindCase, CaseUnified, CasesMeet, NoRepeats, NamesOf, Height, HighestCase, Loosen,
         ShapeOf;
    if UnifyCases(vs, ws).Err? {
      var n := CasesFail(vs, ws);
      CaseSymmetric(vs, ws, n);
      if UnifyCases(ws, vs).Ok? {
        CaseInUnified(ws, vs, n);
      }
    } else if UnifyCases(ws, vs).Err? {
      var n := CasesFail(ws, vs);
      CaseSymmetric(vs, ws, n);
      CaseInUnified(vs, ws, n);
    } else {
      var a, b := UnifyCases(vs, ws).value, UnifyCases(ws, vs).value;
      forall n ensures CasesAlike(a, b, n) {
        CaseSymmetric(vs, ws, n);
        CaseInUnified(vs, ws, n);
        CaseInUnified(ws, vs, n);
      }
      VariantsAlike(a, b);
    }
  }

  // ===== What unification makes of two types, kind by kind.

  // ---------- numbers ----------

  /** Of two different numbers the one that is not a default wins, from either side; if both or none is one, they do not
      unify. */
  lemma NumbersUnify(l: InferredType, r: InferredType)
    requires l.inner.TNum? && r.inner.TNum? && l.inner != r.inner
    ensures l.origin.IsDefault() && !r.origin.IsDefault() ==> UnifyBoth(l, r) == Ok(r)
    ensures !l.origin.IsDefault() && r.origin.IsDefault() ==> UnifyBoth(l, r) == Ok(l)
    ensures l.origin.IsDefault() == r.origin.IsDefault() ==> UnifyBoth(l, r) == Err(TypeMismatch(r, l))
  {
    hide TypeOrigin.IsDefault, Height, UnifyBoth, TryUnify, ShapeOf;
    NumberShape(l);
    NumberShape(r);
    MeetParts(l, r, l, r);
    assert UnifyParts(l, r) == UnifyMoreParts(l, r) == UnifyOther(l, r);
  }

  lemma NumberShape(t: InferredType)
    requires hide *; t.inner.TNum?
    ensures ShapeOf(t) == SLeaf(t.inner) && TryUnify(t) == Ok(t) && Validate(t) == Ok(Plain(t.inner)) && Flatten([t]) == [t]
  {
    hide Height;
    FlattenOne(t);
  }

  /** The same for two numbers as alternatives of one type. */
  lemma {:induction false} AlternativeNumbers(a: InferredType, b: InferredType)
    requires a.inner.TNum? && b.inner.TNum? && a.inner != b.inner
    ensures a.origin.IsDefault() && !b.origin.IsDefault() ==> Unify(Plain(TAllOf([a, b]))) == Ok(Plain(b.inner))
    ensures !a.origin.IsDefault() && b.origin.IsDefault() ==> Unify(Plain(TAllOf([a, b]))) == Ok(Plain(a.inner))
    ensures a.origin.IsDefault() == b.origin.IsDefault() ==> Unify(Plain(TAllOf([a, b]))).Err?
  {
    hide TypeOrigin.IsDefault, UnifyBoth, Validate, TryUnify, Height, Flatten;
    NumbersUnify(a, b);
    NumberShape(a);
    NumberShape(b);
    TwoAlternatives(a, b);
  }

  lemma TwoAlternatives(a: InferredType, b: InferredType)
    requires hide *; a.inner.TNum? && b.inner.TNum?
    ensures TryUnify(Plain(TAllOf([a, b]))) == UnifyBoth(a, b)
  {
    hide UnifyBoth, Height, Validate, Flatten;
    NumberShape(a);
    NumberShape(b);
    FlattenTwo(a, b);
    UnknownTakes(a);
    assert [a, b][1..] == [b] && [b][1..] == [];
    assert UnifyFrom(a, [b]) == UnifyBoth(a, b) by { LastAlternative(a, b); }
  }

  lemma FlattenTwo(a: InferredType, b: InferredType)
    requires hide *; !a.inner.TAllOf? && !b.inner.TAllOf?
    ensures Flatten([a, b]) == [a, b]
  {
    hide Height;
    FlattenOne(b);
    assert [a, b][1..] == [b];
  }

  lemma UnknownTakes(t: InferredType)
    requires hide *; !t.inner.TUnknown?
    ensures UnifyBoth(UNKNOWN, t) == Ok(t)
  {
    hide TryUnify, ShapeOf, Height;
  }

  lemma LastAlternative(a: InferredType, b: InferredType)
    requires hide *; a.inner.TNum? && b.inner.TNum?
    ensures UnifyFrom(a, [b]) == UnifyBoth(a, b)
  {
    hide UnifyBoth, Height, TryUnify;
    NumberShape(b);
    assert [b][1..] == [];
  }

  // ---------- any number of alternatives ----------

  /** The alternatives that are met when nested ones are taken apart. */
  ghost predicate Offers(ts: seq<InferredType>, x: InferredType)
    decreases Total(ts)
  {
    hide *;
    exists t | t in ts :: (t == x && !x.inner.TAllOf?) || (t.inner.TAllOf? && (MemberHeight(ts, t); Offers(t.inner.types, x)))
  }

  lemma MemberHeight(ts: seq<InferredType>, t: InferredType)
    requires hide *; t in ts
    ensures Height(t) <= Total(ts)
    ensures t.inner.TAllOf? ==> Total(t.inner.types) < Total(ts)
    decreases |ts|
  {
    if t != ts[0] {
      MemberHeight(ts[1..], t);
    }
  }

  lemma {:induction false} FlattenExactly(ts: seq<InferredType>, x: InferredType)
    ensures x in Flatten(ts) <==> Offers(ts, x)
    decreases Total(ts)
  {
    hide Height, Flatten, Total;
    if ts == [] {
      NothingOffered(x);
    } else {
      FlattenFirst(ts);
      OffersFirst(ts, x);
      TailTotal(ts);
      FlattenExactly(ts[1..], x);
      if ts[0].inner.TAllOf? {
        MemberHeight(ts, ts[0]);
        FlattenExactly(ts[0].inner.types, x);
      }
    }
  }

  lemma NothingOffered(x: InferredType)
    ensures x !in Flatten([]) && !Offers([], x)
  {
  }

  lemma TailTotal(ts: seq<InferredType>)
    requires hide *; ts != []
    ensures Total(ts[1..]) < Total(ts)
  {
  }

  lemma FlattenFirst(ts: seq<InferredType>)
    requires hide *; ts != []
    ensures Flatten(ts) == (if ts[0].inner.TAllOf? then Flatten(ts[0].inner.types) else [ts[0]]) + Flatten(ts[1..])
  {
    hide Height;
  }

  lemma OffersFirst(ts: seq<InferredType>, x: InferredType)
    requires hide *; ts != []
    ensures Offers(ts, x) <==>
      || (ts[0] == x && !x.inner.TAllOf?) || (ts[0].inner.TAllOf? && Offers(ts[0].inner.types, x)) || Offers(ts[1..], x)
  {
    hide Height;
    assert forall t :: t in ts <==> t == ts[0] || t in ts[1..];
  }

  /** One more alternative is unified with what all others have unified to. */
  lemma {:induction false} FromLast(acc: InferredType, ts: seq<InferredType>, t: InferredType)
    requires !acc.inner.TAllOf? && !t.inner.TAllOf? && forall x :: x in ts ==> !x.inner.TAllOf?
    ensures UnifyFrom(acc, ts + [t])
            == var u := UnifyFrom(acc, ts);
               if u.Err? then u else UnifyBoth(u.value, if TryUnify(t).Ok? then TryUnify(t).value else t)
    decreases |ts|
  {
    hide UnifyBoth, TryUnify, Height;
    if ts == [] {
      assert ts + [t] == [t] && [t][1..] == [];
      LastOne(acc, t);
    } else {
      assert (ts + [t])[1..] == ts[1..] + [t] && ts[0] in ts;
      var u := TryUnify(ts[0]);
      var both := UnifyBoth(acc, if u.Ok? then u.value else ts[0]);
      if both.Ok? {
        FromLast(both.value, ts[1..], t);
      }
    }
  }

  lemma LastOne(acc: InferredType, t: InferredType)
    requires hide *; !acc.inner.TAllOf? && !t.inner.TAllOf?
    ensures UnifyFrom(acc, [t]) == UnifyBoth(acc, if TryUnify(t).Ok? then TryUnify(t).value else t)
    ensures UnifyFrom(acc, []) == Ok(acc)
  {
    hide UnifyBoth, TryUnify, Height;
    assert [t][1..] == [];
  }

  // ---------- types with parts ----------

  /** The two are known, different, and unify in themselves to a and b. */
  ghost predicate Meet(l: InferredType, r: InferredType, a: InferredType, b: InferredType) {
    hide *;
    !l.inner.TUnknown? && !r.inner.TUnknown? && !Same(l, r) && TryUnify(l) == Ok(a) && TryUnify(r) == Ok(b)
  }

  lemma {:induction false} MeetParts(l: InferredType, r: InferredType, a: InferredType, b: InferredType)
    requires hide *; Meet(l, r, a, b)
    ensures !a.inner.TAllOf? && !b.inner.TAllOf? && UnifyBoth(l, r) == UnifyParts(a, b)
  {
    hide TryUnify, UnifyParts, ShapeOf, Height;
  }

  /** Unknown types and equal types give way; a type that does not unify in itself fails. */
  lemma {:induction false} BothGiveWay(l: InferredType, r: InferredType)
    ensures r.inner.TUnknown? ==> UnifyBoth(l, r) == Ok(l)
    ensures l.inner.TUnknown? && !r.inner.TUnknown? ==> UnifyBoth(l, r) == Ok(r)
    ensures Same(l, r) && !r.inner.TUnknown? && !l.inner.TUnknown? ==> UnifyBoth(l, r) == Ok(l)
    ensures !l.inner.TUnknown? && !r.inner.TUnknown? && !Same(l, r) && (TryUnify(l).Err? || TryUnify(r).Err?) ==> UnifyBoth(l, r).Err?
  {
    hide TryUnify, UnifyParts, ShapeOf, Height;
  }

  lemma {:induction false} ListsUnify(l: InferredType, r: InferredType, a: InferredType, b: InferredType)
    requires Meet(l, r, a, b) && a.inner.TList? && b.inner.TList?
    ensures var u := UnifyBoth(a.inner.elem, b.inner.elem);
            if u.Ok? then UnifyBoth(l, r) == Ok(Plain(TList(u.value))) else UnifyBoth(l, r).Err?
  {
    hide UnifyBoth, Height, Meet;
    MeetParts(l, r, a, b);
  }

  lemma {:induction false} OptionsUnify(l: InferredType, r: InferredType, a: InferredType, b: InferredType)
    requires Meet(l, r, a, b) && a.inner.TOption? && b.inner.TOption?
    ensures var u := UnifyBoth(a.inner.some, b.inner.some);
            if u.Ok? then UnifyBoth(l, r) == Ok(Plain(TOption(u.value))) else UnifyBoth(l, r).Err?
  {
    hide UnifyBoth, Height, Meet;
    MeetParts(l, r, a, b);
  }

  /** Item by item; tuples of different sizes do not unify. */
  lemma {:induction false} TuplesUnify(l: InferredType, r: InferredType, a: InferredType, b: InferredType)
    requires Meet(l, r, a, b) && a.inner.TTuple? && b.inner.TTuple?
    ensures |a.inner.items| != |b.inner.items| ==> UnifyBoth(l, r).Err?
    ensures |a.inner.items| == |b.inner.items| ==>
      (UnifyBoth(l, r).Ok? <==> forall i :: 0 <= i < |a.inner.items| ==> UnifyBoth(a.inner.items[i], b.inner.items[i]).Ok?)
    ensures UnifyBoth(l, r).Ok? ==>
      && UnifyBoth(l, r).value.inner.TTuple? && |UnifyBoth(l, r).value.inner.items| == |a.inner.items| == |b.inner.items|
      && forall i :: 0 <= i < |a.inner.items| ==>
           UnifyBoth(a.inner.items[i], b.inner.items[i]) == Ok(UnifyBoth(l, r).value.inner.items[i])
  {
    hide UnifyBoth, Height, Meet, UnifyPairs;
    MeetParts(l, r, a, b);
    if |a.inner.items| == |b.inner.items| {
      PairsUnify(a.inner.items, b.inner.items);
    }
  }

  lemma PairsStep(ts: seq<InferredType>, vs: seq<InferredType>)
    requires hide *; |ts| == |vs| && ts != []
    ensures var u, us := UnifyBoth(ts[0], vs[0]), UnifyPairs(ts[1..], vs[1..]);
            if u.Ok? && us.Ok? then UnifyPairs(ts, vs) == Ok([u.value] + us.value) else UnifyPairs(ts, vs).Err?
  {
    hide UnifyBoth, Height;
  }

  lemma NoPairs()
    ensures hide *; UnifyPairs([], []) == Ok([])
  {
  }

  lemma {:induction false} PairsUnify(ts: seq<InferredType>, vs: seq<InferredType>)
    requires hide *; |ts| == |vs|
    ensures UnifyPairs(ts, vs).Ok? <==> forall i :: 0 <= i < |ts| ==> UnifyBoth(ts[i], vs[i]).Ok?
    ensures UnifyPairs(ts, vs).Ok? ==>
      |UnifyPairs(ts, vs).value| == |ts| && forall i :: 0 <= i < |ts| ==> UnifyBoth(ts[i], vs[i]) == Ok(UnifyPairs(ts, vs).value[i])
    decreases |ts|
  {
    hide UnifyBoth, UnifyPairs, Height;
    if ts == [] {
      NoPairs();
    } else {
      var rest, more := ts[1..], vs[1..];
      PairsStep(ts, vs);
      PairsUnify(rest, more);
      forall i | 0 < i < |ts| ensures ts[i] == rest[i - 1] && vs[i] == more[i - 1] {
      }
    }
  }

  /** A side that both have is unified, a side that only one has is taken as it is. */
  ghost predicate SideUnified(a: Option<InferredType>, b: Option<InferredType>, u: Option<InferredType>) {
    if a.Some? && b.Some? then u.Some? && UnifyBoth(a.value, b.value) == Ok(u.value)
    else u == if a.Some? then a else b
  }

  ghost predicate SideFails(a: Option<InferredType>, b: Option<InferredType>) {
    a.Some? && b.Some? && UnifyBoth(a.value, b.value).Err?
  }

  lemma SidesUnify(a: Option<InferredType>, b: Option<InferredType>)
    ensures hide *; UnifyMaybe(a, b).Err? <==> SideFails(a, b)
    ensures UnifyMaybe(a, b).Ok? ==> SideUnified(a, b, UnifyMaybe(a, b).value)
  {
    hide UnifyBoth, Height;
  }

  lemma {:induction false} ResultsUnify(l: InferredType, r: InferredType, a: InferredType, b: InferredType)
    requires Meet(l, r, a, b) && a.inner.TResult? && b.inner.TResult?
    ensures UnifyBoth(l, r).Err? <==> SideFails(a.inner.ok, b.inner.ok) || SideFails(a.inner.error, b.inner.error)
    ensures UnifyBoth(l, r).Ok? ==>
      && UnifyBoth(l, r).value.inner.TResult?
      && SideUnified(a.inner.ok, b.inner.ok, UnifyBoth(l, r).value.inner.ok)
      && SideUnified(a.inner.error, b.inner.error, UnifyBoth(l, r).value.inner.error)
  {
    hide UnifyBoth, Height, Meet, UnifyMaybe, SideFails, SideUnified;
    MeetParts(l, r, a, b);
    SidesUnify(a.inner.ok, b.inner.ok);
    SidesUnify(a.inner.error, b.inner.error);
    assert UnifyParts(a, b) == UnifyMoreParts(a, b) == UnifyResults(a.inner.ok, a.inner.error, b.inner.ok, b.inner.error);
  }

  lemma {:induction false} RangesUnify(l: InferredType, r: InferredType, a: InferredType, b: InferredType)
    requires Meet(l, r, a, b) && a.inner.TRange? && b.inner.TRange?
    ensures UnifyBoth(l, r).Err? <==> UnifyBoth(a.inner.from, b.inner.from).Err? || SideFails(a.inner.to, b.inner.to)
    ensures UnifyBoth(l, r).Ok? ==>
      && UnifyBoth(l, r).value.inner.TRange?
      && UnifyBoth(a.inner.from, b.inner.from) == Ok(UnifyBoth(l, r).value.inner.from)
      && SideUnified(a.inner.to, b.inner.to, UnifyBoth(l, r).value.inner.to)
  {
    hide UnifyBoth, Height, Meet, UnifyMaybe, SideFails, SideUnified;
    MeetParts(l, r, a, b);
    SidesUnify(a.inner.to, b.inner.to);
    assert UnifyParts(a, b) == UnifyMoreParts(a, b) == UnifyRanges(a.inner.from, a.inner.to, b.inner.from, b.inner.to);
  }

  // ---------- options beside other types ----------

  /** An option and something else become an option of both, each of them made definite before. */
  lemma {:induction false} OptionTakesIn(l: InferredType, r: InferredType, a: InferredType, b: InferredType)
    requires Meet(l, r, a, b) && a.inner.TOption? != b.inner.TOption?
    ensures var x := Unify(if a.inner.TOption? then a.inner.some else b.inner.some);
            var y := Unify(if a.inner.TOption? then b else a);
            if x.Ok? && y.Ok? && UnifyBoth(x.value, y.value).Ok?
            then UnifyBoth(l, r) == Ok(Plain(TOption(UnifyBoth(x.value, y.value).value))) else UnifyBoth(l, r).Err?
  {
    hide UnifyBoth, Height, Meet, TryUnify, Validate, ShapeOf;
    MeetParts(l, r, a, b);
    assert UnifyParts(a, b) == UnifyMoreParts(a, b) == UnifyOther(a, b);
    assert UnifyOther(a, b) == if a.inner.TOption? then UnifyOption(a.inner.some, b) else UnifyOption(b.inner.some, a);
  }

  // ---------- everything else ----------

  /** The kind of a type; numbers are one kind. */
  datatype Kind = KBool | KNum | KChr | KStr | KList | KTuple | KRecord | KFlags | KEnum | KOption | KResult | KVariant | KResource
    | KRange | KInstance | KAllOf | KUnknown | KSequence

  function KindOf(t: InferredType): Kind {
    match t.inner
    case TBool => KBool
    case TNum(_) => KNum
    case TChr => KChr
    case TStr => KStr
    case TList(_) => KList
    case TTuple(_) => KTuple
    case TRecord(_) => KRecord
    case TFlags(_) => KFlags
    case TEnum(_) => KEnum
    case TOption(_) => KOption
    case TResult(_, _) => KResult
    case TVariant(_) => KVariant
    case TResource(_, _, _, _) => KResource
    case TRange(_, _) => KRange
    case TInstance(_) => KInstance
    case TAllOf(_) => KAllOf
    case TUnknown => KUnknown
    case TSequence(_) => KSequence
  }

  /** Types of different kinds fail, unless one of them is an option. */
  lemma {:induction false} KindsFail(l: InferredType, r: InferredType, a: InferredType, b: InferredType)
    requires Meet(l, r, a, b) && KindOf(a) != KindOf(b) && !a.inner.TOption? && !b.inner.TOption?
    ensures UnifyBoth(l, r) == Err(TypeMismatch(b, a))
  {
    hide UnifyBoth, Height, Meet, KindOf;
    MeetParts(l, r, a, b);
    KindShape(a, b);
    assert UnifyParts(a, b) == UnifyMoreParts(a, b) == UnifyOther(a, b);
  }

  lemma {:induction false} KindShape(a: InferredType, b: InferredType)
    requires hide *; KindOf(a) != KindOf(b)
    ensures !Same(a, b) && !(a.inner.TRecord? && b.inner.TRecord?) && !(a.inner.TTuple? && b.inner.TTuple?)
    ensures !(a.inner.TList? && b.inner.TList?) && !(a.inner.TVariant? && b.inner.TVariant?) && !(a.inner.TFlags? && b.inner.TFlags?)
    ensures !(a.inner.TRange? && b.inner.TRange?) && !(a.inner.TResult? && b.inner.TResult?) && !(a.inner.TEnum? && b.inner.TEnum?)
    ensures !(a.inner.TResource? && b.inner.TResource?) && !(a.inner.TNum? && b.inner.TNum?)
  {
    hide ShapesOf, FieldShapes, CaseShapes;
  }

  /** Enums and resources unify only if they are the same in every respect. */
  lemma {:induction false} NamedUnify(l: InferredType, r: InferredType, a: InferredType, b: InferredType)
    requires Meet(l, r, a, b) && ((a.inner.TEnum? && b.inner.TEnum?) || (a.inner.TResource? && b.inner.TResource?))
    ensures if a.inner == b.inner then UnifyBoth(l, r) == Ok(Plain(a.inner)) else UnifyBoth(l, r).Err?
  {
    hide UnifyBoth, Height, Meet, ShapeOf;
    MeetParts(l, r, a, b);
    assert UnifyParts(a, b) == UnifyMoreParts(a, b);
  }

  /** Of two sets of flags the one that has all flags of the other wins. */
  lemma {:induction false} FlagsUnify(l: InferredType, r: InferredType, a: InferredType, b: InferredType)
    requires Meet(l, r, a, b) && a.inner.TFlags? && b.inner.TFlags?
    ensures UnifyBoth(l, r).Ok? ==>
      && (UnifyBoth(l, r).value == Plain(a.inner) || UnifyBoth(l, r).value == Plain(b.inner))
      && forall n :: n in a.inner.flags || n in b.inner.flags ==> n in UnifyBoth(l, r).value.inner.flags
    ensures NoRepeats(a.inner.flags) && NoRepeats(b.inner.flags) ==>
      (UnifyBoth(l, r).Ok? <==> ToSet(a.inner.flags) <= ToSet(b.inner.flags) || ToSet(b.inner.flags) <= ToSet(a.inner.flags))
  {
    hide UnifyBoth, Height, Meet, ShapeOf, UnifyFlags, NoRepeats, ToSet;
    MeetParts(l, r, a, b);
    assert UnifyParts(a, b) == UnifyMoreParts(a, b);
    FlagsTaken(a.inner.flags, b.inner.flags);
  }

  lemma FlagsTaken(a: seq<string>, b: seq<string>)
    ensures hide *; UnifyFlags(a, b).Some? ==>
      && (UnifyFlags(a, b).value == a || UnifyFlags(a, b).value == b)
      && forall n :: n in a || n in b ==> n in UnifyFlags(a, b).value
    ensures NoRepeats(a) && NoRepeats(b) ==> (UnifyFlags(a, b).Some? <==> ToSet(a) <= ToSet(b) || ToSet(b) <= ToSet(a))
  {
    hide NoRepeats;
    NamesCount(a);
    NamesCount(b);
    if NoRepeats(a) && NoRepeats(b) {
      if ToSet(a) <= ToSet(b) {
        Subsets(ToSet(a), ToSet(b));
        if |a| == |b| {
          SubsetSame(ToSet(a), ToSet(b));
        }
        assert AllIn(a, b) && (|a| == |b| ==> AllIn(b, a)) by {
          assert forall n :: n in a ==> n in ToSet(a);
          assert forall n :: n in b ==> n in ToSet(b);
        }
      }
      if ToSet(b) <= ToSet(a) {
        Subsets(ToSet(b), ToSet(a));
        assert AllIn(b, a) by {
          assert forall n :: n in b ==> n in ToSet(b);
        }
      }
    }
  }

  lemma LeavesRest(a: InferredType, b: InferredType)
    requires hide *; KindOf(a) == KindOf(b) && KindOf(a) in {KBool, KChr, KStr, KInstance, KSequence}
    ensures !a.inner.TAllOf? && !b.inner.TAllOf? && !IsNumber(a) && UnifyParts(a, b) == UnifyRest(a, b)
  {
    hide UnifyBoth, Height, ShapeOf, UnifyRest, Validate, UnifyFlags;
    assert UnifyParts(a, b) == UnifyMoreParts(a, b) == UnifyOther(a, b);
  }

  /** Types without parts unify only with their like. */
  lemma {:induction false} LeavesUnify(l: InferredType, r: InferredType, a: InferredType, b: InferredType)
    requires Meet(l, r, a, b) && KindOf(a) == KindOf(b) && KindOf(a) in {KBool, KChr, KStr, KInstance, KSequence}
    ensures UnifyBoth(l, r) == if Same(a, b) then Ok(a) else Err(TypeMismatch(b, a))
  {
    hide UnifyBoth, UnifyParts, Height, Meet, ShapeOf, KindOf;
    MeetParts(l, r, a, b);
    LeavesRest(a, b);
  }
}
