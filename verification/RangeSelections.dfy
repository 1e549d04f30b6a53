/** Selecting a range of a list: what the comprehension it is rewritten to picks. */
module RangeSelections {
  import opened Syntax
  import opened Values
  import opened Machine
  import opened ByteCode
  import opened Evaluation
  import opened Running
  import opened Simulation
  import opened MatchDesugaring
  import Desugar

  const ITEM: VariableId := Desugar.ITEM
  const SIZE: VariableId := Desugar.SIZE
  const LAST_INDEX: VariableId := Desugar.LAST_INDEX

  function Index(k: NumberKind, i: int): StackValue { Val(VT(VNum(k, i as real), WNum(k))) }

  function ListOfItems(items: seq<Value>, elem: WitType): StackValue { Val(VT(VList(items), WList(elem))) }

  /** The items with these indices; an error when one of them does not exist, but only if there is any. */
  function Slice(items: seq<Value>, from: int, to: int): Option<seq<Value>> {
    if from >= to then Some([])
    else if 0 <= from && to <= |items| then Some(items[from..to])
    else None
  }

  /** What is left when the first index is taken. */
  lemma SliceStep(items: seq<Value>, from: int, to: int)
    requires from < to
    ensures Slice(items, from, to)
            == if 0 <= from < |items| && Slice(items, from + 1, to).Some? then Some([items[from]] + Slice(items, from + 1, to).value)
               else None
  {
    if 0 <= from && to <= |items| {
      assert items[from..to] == [items[from]] + items[from + 1..to];
    }
  }

  lemma {:induction false} ItemVariable<H>(w: World<H>, v: StackValue, env: Env, h: H)
    requires Plainish(v)
    ensures var inner := env[ITEM := v]; Eval(w, MkVar(ITEM), inner, h) == Done(Some(v), inner, h)
  {
    hide Eval, WitOf, Weight;
    EvalLeaf(w, MkVar(ITEM), env[ITEM := v], h);
  }

  /** One item. */
  lemma ItemSelected<H(!new)>(w: World<H>, list: Expr, items: seq<Value>, elem: WitType, k: NumberKind, i: int, env: Env,
                              except: set<VariableId>, now: Env, h: H)
    requires hide *;
             Steady(w, list, ListOfItems(items, elem), env, except) && Agree(now, env, except) && ITEM in except && !IsFloat(k)
    ensures var inner := now[ITEM := Index(k, i)];
            Eval(w, Desugar.ItemOf(list), inner, h)
            == if 0 <= i < |items| then Done(Some(Val(VT(items[i], elem))), inner, h) else Fault(h)
  {
    hide Eval;
    var inner := now[ITEM := Index(k, i)];
    ItemVariable(w, Index(k, i), now, h);
    assert Agree(inner, env, except);
    EvalSelectStep(w, list, MkVar(ITEM), Index(k, i), inner, h);
  }

  ghost predicate Picks<H(!new)>(o: Outcome<H>, picked: Option<seq<Value>>, elem: WitType, env: Env, except: set<VariableId>, h: H) {
    hide *;
    && o.h == h && (o.Done? <==> picked.Some?)
    && (o.Done? ==> o.v == Some(ListOfItems(picked.value, elem)) && Agree(o.env, env, except))
  }

  function More(acc: seq<ValueAndType>, picked: Option<seq<Value>>): Option<seq<Value>> {
    if picked.Some? then Some(ValuesOf(acc) + picked.value) else None
  }

  lemma {:induction false} CollectsSlice<H(!new)>(w: World<H>, list: Expr, items: seq<Value>, elem: WitType, k: NumberKind,
                                                  from: int, to: int, acc: seq<ValueAndType>, result: WitType, env: Env,
                                                  except: set<VariableId>, now: Env, h: H)
    requires Steady(w, list, ListOfItems(items, elem), env, except) && Agree(now, env, except) && ITEM in except && !IsFloat(k)
    ensures Picks(Collect(w, ITEM, Desugar.ItemOf(list), Counting(k, from, to), acc, result, now, h),
                  More(acc, Slice(items, from, to)), result, env, except, h)
    decreases if from < to then to - from else 0
  {
    hide Eval, Steady, Desugar.ItemOf, Slice, Collect, Weight, ValuesOf;
    CollectUnfold(w, ITEM, Desugar.ItemOf(list), Counting(k, from, to), acc, result, now, h);
    if from >= to {
      EmptySlice(items, from, to);
      assert ValuesOf(acc) + [] == ValuesOf(acc);
    } else {
      SliceStep(items, from, to);
      ItemSelected(w, list, items, elem, k, from, env, except, now, h);
      var all := Counting(k, from, to);
      assert all[1..] == Counting(k, from + 1, to) && Val(all[0]) == Index(k, from);
      var inner := now[ITEM := Index(k, from)];
      if 0 <= from < |items| {
        var vt := VT(items[from], elem);
        ValuesAppend(acc, vt);
        CollectsSlice(w, list, items, elem, k, from + 1, to, acc + [vt], result, env, except, inner, h);
        assert Collect(w, ITEM, Desugar.ItemOf(list), all, acc, result, now, h)
            == Collect(w, ITEM, Desugar.ItemOf(list), Counting(k, from + 1, to), acc + [vt], result, inner, h);
        if Slice(items, from + 1, to).Some? {
          assert (ValuesOf(acc) + [items[from]]) + Slice(items, from + 1, to).value
              == ValuesOf(acc) + ([items[from]] + Slice(items, from + 1, to).value);
        }
        assert More(acc, Slice(items, from, to)) == More(acc + [vt], Slice(items, from + 1, to));
      } else {
        assert Collect(w, ITEM, Desugar.ItemOf(list), all, acc, result, now, h) == Fault(h);
      }
    }
  }

  lemma EmptySlice(items: seq<Value>, from: int, to: int)
    requires from >= to
    ensures Slice(items, from, to) == Some([])
  {
  }

  /** A range as the machine has it. */
  function RangeOf(k: NumberKind, from: int, to: int, inclusive: bool, fields: seq<Field<WitType>>): StackValue {
    Val(VT(VRecord([VNum(k, from as real), VNum(k, to as real), VBool(inclusive)]), WRecord(fields)))
  }

  lemma ComprehensionPicks<H(!new)>(w: World<H>, e: Expr, list: Expr, items: seq<Value>, elem: WitType, k: NumberKind, from: int,
                                    to: int, inclusive: bool, fields: seq<Field<WitType>>, result: WitType, env: Env,
                                    except: set<VariableId>, start: Env, h: H)
    requires hide *;
             e.kind.Comprehension? && e.kind.iterated == ITEM && e.kind.body == Desugar.ItemOf(list) && ITEM in except
    requires WitOf(e.ty) == Some(WList(result)) && !IsFloat(k)
    requires Steady(w, list, ListOfItems(items, elem), env, except)
    requires var o := Eval(w, e.kind.iterable, start, h);
             o.Done? && o.v == Some(RangeOf(k, from, to, inclusive, fields)) && Agree(o.env, env, except)
    ensures Picks(Eval(w, e, start, h), Slice(items, from, if inclusive then to + 1 else to), result, env, except,
                  Eval(w, e.kind.iterable, start, h).h)
  {
    hide Eval, Steady, Desugar.ItemOf, Slice, Collect, Counting, WitOf, Iterated, Weight, Agree;
    EvalComprehension(w, e, start, h);
    var o := Eval(w, e.kind.iterable, start, h);
    var end := if inclusive then to + 1 else to;
    RangeIterates(k, from, to, inclusive, fields);
    CollectsSlice(w, list, items, elem, k, from, end, [], result, env, except, o.env, o.h);
    if Slice(items, from, end).Some? {
      assert ValuesOf([]) + Slice(items, from, end).value == Slice(items, from, end).value;
    }
  }

  lemma {:induction false} RangeIterates(k: NumberKind, from: int, to: int, inclusive: bool, fields: seq<Field<WitType>>)
    requires !IsFloat(k)
    ensures Iterated(RangeOf(k, from, to, inclusive, fields)) == Some(Iter(Counting(k, from, if inclusive then to + 1 else to)))
  {
    hide Counting;
  }

  lemma {:induction false} SelectionRewritten<H>(w: World<H>, e: Expr, env: Env, h: H)
    requires hide Eval, Weight, Desugar.UpToEnd, Desugar.ItemOf;
             e.kind.SelectIndex? && e.kind.index.ty.inner.TRange? && e.kind.index.kind.Range?
    ensures Eval(w, e, env, h) == Eval(w, Desugar.RangeSelection(e.kind.list, e.kind.index).value, env, h)
  {
    hide Eval, Weight, PlanOf, Desugar.RangeSelection;
    SelectionPlan(e);
    EvalRewritten(w, e, env, h);
  }

  lemma SelectionPlan(e: Expr)
    requires hide Desugar.UpToEnd, PlanOf, Desugar.ItemOf;
             e.kind.SelectIndex? && e.kind.index.ty.inner.TRange? && e.kind.index.kind.Range?
    ensures PlanOf(e, 0) == Rewrite(Desugar.RangeSelection(e.kind.list, e.kind.index).value)
  {
    hide Weight, Desugar.RangeSelection, MatchPlan, RecordPlan, LeafPlan, CallPlan, WitOf;
    RangeSelects(e.kind.list, e.kind.index);
  }

  lemma RangeSelects(list: Expr, range: Expr)
    requires range.kind.Range?
    ensures Desugar.RangeSelection(list, range).Some?
  {
  }

  /** A closed range picks the items from its start to its end, with or without the end; it is an error exactly when the
      range is not empty and leaves the list. */
  lemma ClosedRangePicks<H(!new)>(w: World<H>, e: Expr, items: seq<Value>, elem: WitType, result: WitType, k: NumberKind,
                                  from: int, to: int, inclusive: bool, fields: seq<Field<WitType>>, env: Env, h: H)
    requires hide *;
             e.kind.SelectIndex? && e.kind.index.ty.inner.TRange? && e.kind.index.kind.Range? && e.kind.index.kind.to.Some?
    requires WitOf(e.kind.list.ty) == Some(WList(result)) && !IsFloat(k)
    requires Steady(w, e.kind.list, ListOfItems(items, elem), env, {ITEM})
    requires var o := Eval(w, e.kind.index, env, h);
             o.Done? && o.v == Some(RangeOf(k, from, to, inclusive, fields)) && Agree(o.env, env, {ITEM})
    ensures Picks(Eval(w, e, env, h), Slice(items, from, if inclusive then to + 1 else to), result, env, {ITEM},
                  Eval(w, e.kind.index, env, h).h)
  {
    hide Eval, Steady, Slice, WitOf, Weight, Picks, Agree;
    SelectionRewritten(w, e, env, h);
    var c := Desugar.RangeSelection(e.kind.list, e.kind.index).value;
    ComprehensionPicks(w, c, e.kind.list, items, elem, k, from, to, inclusive, fields, result, env, {ITEM}, env, h);
  }

  // ---------- ranges without an end ----------

  const OWN: set<VariableId> := {ITEM, SIZE, LAST_INDEX}

  function SizeOf(items: seq<Value>): StackValue { Index(U64, |items|) }

  lemma SizeBound<H(!new)>(w: World<H>, list: Expr, items: seq<Value>, elem: WitType, env: Env, h: H)
    requires Steady(w, list, ListOfItems(items, elem), env, OWN)
    ensures Eval(w, Mk(Let(SIZE, Mk(Unary(Length, list)))), env, h) == Done(None, env[SIZE := SizeOf(items)], h)
  {
    hide Eval, Discipline, WitOf, TagName;
    assert Agree(env, env, OWN);
    var length := Mk(Unary(Length, list));
    EvalUnaryStep(w, length, env, h);
    LetMeaning(w, Mk(Let(SIZE, length)), env, h);
  }

  /** The last index as a number of the given kind. */
  function LastIndex(items: seq<Value>, k: NumberKind): Option<StackValue> {
    if MinOf(k) <= |items| - 1 <= MaxOf(k) then Some(Index(k, |items| - 1)) else None
  }

  lemma LastIndexComputed(items: seq<Value>, k: NumberKind)
    requires !IsFloat(k) && |items| <= MaxOf(S64)
    ensures MathValues(Minus, WNum(k), SizeOf(items), Index(k, 1)) == LastIndex(items, k)
  {
    hide Machine.Compute;
  }

  function SizeMinusOne(ty: InferredType): Expr {
    Expr(Binary(Math(Minus), Expr(Atom(Identifier(SIZE)), ty, NO_NOTE), Expr(Atom(Number(1.0)), ty, NO_NOTE)), ty, NO_NOTE)
  }

  lemma {:induction false} SizeMinusOneMeans<H>(w: World<H>, items: seq<Value>, k: NumberKind, ty: InferredType, env: Env,
                                                h: H)
    requires hide *;
             WitOf(ty) == Some(WNum(k)) && !IsFloat(k) && |items| <= MaxOf(S64) && SIZE in env && env[SIZE] == SizeOf(items)
    ensures Eval(w, SizeMinusOne(ty), env, h)
            == if LastIndex(items, k).Some? then Done(LastIndex(items, k), env, h) else Fault(h)
  {
    hide Eval, EvalAll, WitOf, LastIndex, MathValues, SizeOf;
    var e := SizeMinusOne(ty);
    var size, one := e.kind.lhs, e.kind.rhs;
    EvalStrict(w, e, env, h);
    assert Ops(e) == ([] + [one]) + [size];
    EvalLastOperand(w, [] + [one], size, env, h);
    EvalLastOperand(w, [], one, env, h);
    EvalNone(w, env, h);
    OneMeans(w, k, ty, env, h);
    SizeIsVal(items);
    EvalLeaf(w, size, env, h);
    assert Reverse(([] + [Index(k, 1)]) + [SizeOf(items)]) == [SizeOf(items), Index(k, 1)];
    LastIndexComputed(items, k);
  }

  lemma SizeIsVal(items: seq<Value>)
    ensures SizeOf(items).Val?
  {
  }

  lemma {:induction false} OneMeans<H>(w: World<H>, k: NumberKind, ty: InferredType, env: Env, h: H)
    requires WitOf(ty) == Some(WNum(k)) && !IsFloat(k)
    ensures Eval(w, Expr(Atom(Number(1.0)), ty, NO_NOTE), env, h) == Done(Some(Index(k, 1)), env, h)
  {
    hide Eval, WitOf;
    EvalLeaf(w, Expr(Atom(Number(1.0)), ty, NO_NOTE), env, h);
  }

  function RangeFields(k: NumberKind): seq<Field<WitType>> {
    [Field("from", WNum(k)), Field("to", WNum(k)), Field("inclusive", WBool)]
  }

  lemma RangeIndices(k: NumberKind)
    ensures FieldIndex(RangeFields(k), "from") == Some(0) && FieldIndex(RangeFields(k), "to") == Some(1)
    ensures FieldIndex(RangeFields(k), "inclusive") == Some(2)
  {
    var fields := RangeFields(k);
    assert fields[1..][0].name == "to" && fields[1..][1..][0].name == "inclusive";
    assert "from" != "to" && "from"[0] != "inclusive"[0] && "to"[0] != "inclusive"[0] && "from"[0] != "to"[0];
  }

  lemma {:induction false} RangeRecord(from: int, last: int, k: NumberKind, ty: InferredType)
    requires WitOf(ty) == Some(WRecord(RangeFields(k)))
    ensures RangeValue(ty, false, Index(k, from), Some(Index(k, last))) == Some(RangeOf(k, from, last, false, RangeFields(k)))
  {
    hide WitOf, UpdateField, FieldIndex;
    RangeIndices(k);
    var fields, none := RangeFields(k), VTuple([]);
    var a, b, c := VNum(k, from as real), VNum(k, last as real), VBool(false);
    var empty := seq(|fields|, _ => none);
    SetAt(fields, empty, 2, "inclusive", BoolVT(false));
    SetAt(fields, empty[2 := c], 1, "to", VT(b, WNum(k)));
    SetAt(fields, empty[2 := c][1 := b], 0, "from", VT(a, WNum(k)));
    assert empty[2 := c][1 := b][0 := a] == [a, b, c];
    ThreeSet(EmptyRecord(WRecord(fields)), ["inclusive", "to", "from"], [MkVal(false), Index(k, last), Index(k, from)]);
  }

  lemma {:induction false} SetAt(fields: seq<Field<WitType>>, items: seq<Value>, i: nat, name: string, vt: ValueAndType)
    requires hide *; FieldIndex(fields, name) == Some(i) && i < |items|
    ensures UpdateField(name, Val(VT(VRecord(items), WRecord(fields))), Val(vt))
            == Some(Val(VT(VRecord(items[i := vt.value]), WRecord(fields))))
  {
  }

  function Set(record: Option<StackValue>, name: string, v: StackValue): Option<StackValue> {
    hide *;
    if record.None? then None else UpdateField(name, record.value, v)
  }

  lemma ThreeSet(record: Option<StackValue>, names: seq<string>, vs: seq<StackValue>)
    requires hide *; |names| == |vs| == 3
    ensures RecordValue(record, names, vs) == Set(Set(Set(record, names[0], vs[0]), names[1], vs[1]), names[2], vs[2])
  {
    hide UpdateField;
    var r1 := Set(record, names[0], vs[0]);
    var r2 := Set(r1, names[1], vs[1]);
    assert names[1..][1..][1..] == [] && vs[1..][1..][1..] == [];
    assert RecordValue(r2, names[1..][1..], vs[1..][1..]) == Set(r2, names[2], vs[2]);
    assert RecordValue(r1, names[1..], vs[1..]) == RecordValue(r2, names[1..][1..], vs[1..][1..]);
  }

  function UpTo(from: Expr): Expr {
    Expr(Range(from, Some(Expr(Atom(Identifier(LAST_INDEX)), from.ty, NO_NOTE)), false), Plain(TRange(from.ty, Some(from.ty))), NO_NOTE)
  }

  lemma UpToMeans<H(!new)>(w: World<H>, from: Expr, a: int, last: int, k: NumberKind, env: Env, now: Env, h: H)
    requires hide *; WitOf(from.ty) == Some(WNum(k)) && Steady(w, from, Index(k, a), env, OWN) && Agree(now, env, OWN)
    requires LAST_INDEX in now && now[LAST_INDEX] == Index(k, last)
    ensures Eval(w, UpTo(from), now, h) == Done(Some(RangeOf(k, a, last, false, RangeFields(k))), now, h)
  {
    hide Eval, EvalAll, RangeValue, RangeOf, BinaryValue, UnaryValue, WitOfAll;
    var e := UpTo(from);
    var end := e.kind.to.value;
    EvalStrict(w, e, now, h);
    assert Ops(e) == ([] + [from]) + [end];
    EvalLastOperand(w, [] + [from], end, now, h);
    EvalLastOperand(w, [], from, now, h);
    EvalNone(w, now, h);
    EvalLeaf(w, end, now, h);
    assert Reverse(([] + [Index(k, a)]) + [Index(k, last)]) == [Index(k, last), Index(k, a)];
    RangeRecord(a, last, k, e.ty);
  }

  lemma UpToEndIs(list: Expr, from: Expr)
    ensures Desugar.UpToEnd(list, from)
            == ([Mk(Let(SIZE, Mk(Unary(Length, list))))] + [Expr(Let(LAST_INDEX, SizeMinusOne(from.ty)), from.ty, NO_NOTE)])
               + [Expr(Comprehension(ITEM, UpTo(from), Desugar.ItemOf(list)), list.ty, NO_NOTE)]
  {
  }

  lemma FirstTwo<H(!new)>(w: World<H>, list: Expr, from: Expr, items: seq<Value>, elem: WitType, k: NumberKind, env: Env, h: H)
    requires hide *; WitOf(from.ty) == Some(WNum(k)) && !IsFloat(k) && |items| <= MaxOf(S64)
    requires Steady(w, list, ListOfItems(items, elem), env, OWN)
    ensures var first := [Mk(Let(SIZE, Mk(Unary(Length, list))))];
            EvalBlock(w, first + [Expr(Let(LAST_INDEX, SizeMinusOne(from.ty)), from.ty, NO_NOTE)], env, h)
            == if LastIndex(items, k).None? then Fault(h)
               else Done(None, env[SIZE := SizeOf(items)][LAST_INDEX := LastIndex(items, k).value], h)
  {
    hide Eval, EvalBlock, WitOf, LastIndex, SizeOf, SizeMinusOne, Steady, Discipline, Weight;
    var s0 := Mk(Let(SIZE, Mk(Unary(Length, list))));
    var s1 := Expr(Let(LAST_INDEX, SizeMinusOne(from.ty)), from.ty, NO_NOTE);
    EvalLastStatement(w, [s0], s1, env, h);
    assert [s0] == [] + [s0];
    EvalLastStatement(w, [], s0, env, h);
    EmptyMeaning(w, env, h);
    SizeBound(w, list, items, elem, env, h);
    SizeMinusOneMeans(w, items, k, from.ty, env[SIZE := SizeOf(items)], h);
    LetMeaning(w, s1, env[SIZE := SizeOf(items)], h);
  }

  /** A range without an end picks the items from its start up to the last one, which it leaves out. It is an error when the
      range is not empty and leaves the list, and when the kind of its numbers does not have the last index: for unsigned
      kinds that includes the empty list. */
  lemma OpenRangePicks<H(!new)>(w: World<H>, e: Expr, items: seq<Value>, elem: WitType, result: WitType, k: NumberKind, a: int,
                                env: Env, h: H)
    requires hide *;
             e.kind.SelectIndex? && e.kind.index.ty.inner.TRange? && e.kind.index.kind.Range? && e.kind.index.kind.to.None?
    requires WitOf(e.kind.list.ty) == Some(WList(result)) && WitOf(e.kind.index.kind.from.ty) == Some(WNum(k)) && !IsFloat(k)
    requires |items| <= MaxOf(S64)
    requires Steady(w, e.kind.list, ListOfItems(items, elem), env, OWN)
    requires Steady(w, e.kind.index.kind.from, Index(k, a), env, OWN)
    ensures Picks(Eval(w, e, env, h), if MinOf(k) <= |items| - 1 <= MaxOf(k) then Slice(items, a, |items| - 1) else None,
                  result, env, OWN, h)
  {
    hide Eval, EvalBlock, Steady, Slice, WitOf, Weight, Collect, SizeOf, Desugar.UpToEnd, Desugar.ItemOf, UpTo,
         SizeMinusOne, BlockDiscipline, Discipline, WeightAll, MaxOf, RangeFields;
    var list, from := e.kind.list, e.kind.index.kind.from;
    SelectionRewritten(w, e, env, h);
    var block := MkBlock(Desugar.UpToEnd(list, from));
    BlockMeaning(w, block, env, h);
    UpToEndIs(list, from);
    var s0 := Mk(Let(SIZE, Mk(Unary(Length, list))));
    var s1 := Expr(Let(LAST_INDEX, SizeMinusOne(from.ty)), from.ty, NO_NOTE);
    var s2 := Expr(Comprehension(ITEM, UpTo(from), Desugar.ItemOf(list)), list.ty, NO_NOTE);
    EvalLastStatement(w, [s0] + [s1], s2, env, h);
    FirstTwo(w, list, from, items, elem, k, env, h);
    if LastIndex(items, k).Some? {
      var now := env[SIZE := SizeOf(items)][LAST_INDEX := LastIndex(items, k).value];
      assert Agree(now, env, OWN);
      UpToMeans(w, from, a, |items| - 1, k, env, now, h);
      ComprehensionPicks(w, s2, list, items, elem, k, a, |items| - 1, false, RangeFields(k), result, env, OWN, now, h);
    }
  }
}
