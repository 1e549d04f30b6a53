/** Values at the border to the host: conversion out of the interpreter and back. */
module HostValues {
  import opened Syntax
  import opened Values

  datatype HostValue =
    | HBool(b: bool)
    | HNum(kind: NumberKind, n: real)
    | HChar(c: char)
    | HStr(s: string)
    | HList(items: seq<HostValue>)
    | HRecord(pairs: seq<Field<HostValue>>)
    | HTuple(items: seq<HostValue>)
    | HVariant(name: string, payload: Option<HostValue>)
    | HEnum(name: string)
    | HOption(inner: Option<HostValue>)
    | HOk(inner: Option<HostValue>)
    | HErr(inner: Option<HostValue>)
    | HFlags(names: seq<string>)
    | HHandle(uri: string, id: int, instance: string)

  // ---------- out of the interpreter ----------

  function ToHost(v: Value, t: WitType): Option<HostValue>
    decreases v
  {
    hide *;
    match (t, v)
    case (WBool, VBool(b)) => Some(HBool(b))
    case (WNum(k), VNum(l, n)) => if k == l then Some(HNum(k, n)) else None
    case (WChr, VChar(c)) => Some(HChar(c))
    case (WStr, VStr(s)) => Some(HStr(s))
    case (WList(elem), VList(items)) =>
      var hs := AllToHost(items, seq(|items|, _ => elem));
      if hs.Some? then Some(HList(hs.value)) else None
    case (WRecord(fields), VRecord(items)) =>
      if |fields| != |items| then None else
      var hs := AllToHost(items, FieldTypes(fields));
      if hs.Some? then Some(HRecord(Named(fields, hs.value))) else None
    case (WTuple(types), VTuple(items)) =>
      if |types| != |items| then None else
      var hs := AllToHost(items, types);
      if hs.Some? then Some(HTuple(hs.value)) else None
    case (WVariant(cases), VVariant(i, payload)) =>
      if i >= |cases| || payload.Some? != cases[i].of.Some? then None
      else if payload.None? then Some(HVariant(cases[i].name, None))
      else
        var h := ToHost(payload.value, cases[i].of.value);
        if h.Some? then Some(HVariant(cases[i].name, h)) else None
    case (WEnum(cases), VEnum(i)) => if i < |cases| then Some(HEnum(cases[i])) else None
    case (WFlags(names), VFlags(bits)) => Some(HFlags(SetNames(names, bits)))
    case (WOption(some), VOption(inner)) =>
      if inner.None? then Some(HOption(None))
      else var h := ToHost(inner.value, some); if h.Some? then Some(HOption(h)) else None
    case (WResult(ok, _), VOk(inner)) =>
      if inner.None? then Some(HOk(None))
      else if ok.None? then None
      else var h := ToHost(inner.value, ok.value); if h.Some? then Some(HOk(h)) else None
    case (WResult(_, err), VErr(inner)) =>
      if inner.None? then Some(HErr(None))
      else if err.None? then None
      else var h := ToHost(inner.value, err.value); if h.Some? then Some(HErr(h)) else None
    case (WHandle(_, _), VHandle(uri, id, instance)) => Some(HHandle(uri, id, instance))
    case _ => None
  }

  function AllToHost(vs: seq<Value>, ts: seq<WitType>): (r: Option<seq<HostValue>>)
    requires hide *; |vs| == |ts|
    ensures r.Some? ==> |r.value| == |vs|
    decreases vs
  {
    if vs == [] then Some([]) else
    var h, hs := ToHost(vs[0], ts[0]), AllToHost(vs[1..], ts[1..]);
    if h.Some? && hs.Some? then Some([h.value] + hs.value) else None
  }

  function FieldTypes(fields: seq<Field<WitType>>): (ts: seq<WitType>)
    ensures |ts| == |fields|
  {
    seq(|fields|, i requires 0 <= i < |fields| => fields[i].of)
  }

  function Named(fields: seq<Field<WitType>>, hs: seq<HostValue>): (ps: seq<Field<HostValue>>)
    requires |fields| == |hs|
    ensures |ps| == |hs|
  {
    seq(|hs|, i requires 0 <= i < |hs| => Field(fields[i].name, hs[i]))
  }

  /** The names whose bit is set, in declared order; missing bits count as unset. */
  function SetNames(names: seq<string>, bits: seq<bool>): seq<string> {
    if names == [] || bits == [] then []
    else (if bits[0] then [names[0]] else []) + SetNames(names[1..], bits[1..])
  }

  // ---------- back into the interpreter ----------

  function FromHost(h: HostValue, t: WitType): Option<Value>
    decreases h
  {
    hide *;
    match (t, h)
    case (WBool, HBool(b)) => Some(VBool(b))
    case (WNum(k), HNum(l, n)) => if k == l then Some(VNum(k, n)) else None
    case (WChr, HChar(c)) => Some(VChar(c))
    case (WStr, HStr(s)) => Some(VStr(s))
    case (WList(elem), HList(items)) =>
      var vs := AllFromHost(items, seq(|items|, _ => elem));
      if vs.Some? then Some(VList(vs.value)) else None
    case (WRecord(fields), HRecord(pairs)) =>
      if |fields| != |pairs| then None else
      var vs := FieldsFromHost(pairs, fields);
      if vs.Some? then Some(VRecord(vs.value)) else None
    case (WTuple(types), HTuple(items)) =>
      if |types| != |items| then None else
      var vs := AllFromHost(items, types);
      if vs.Some? then Some(VTuple(vs.value)) else None
    case (WVariant(cases), HVariant(name, payload)) =>
      var i := CaseIndex(cases, name);
      if i.None? || payload.Some? != cases[i.value].of.Some? then None
      else if payload.None? then Some(VVariant(i.value, None))
      else
        var v := FromHost(payload.value, cases[i.value].of.value);
        if v.Some? then Some(VVariant(i.value, v)) else None
    case (WEnum(cases), HEnum(name)) =>
      var i := NameIndex(cases, name);
      if i.Some? then Some(VEnum(i.value)) else None
    case (WOption(some), HOption(inner)) =>
      if inner.None? then Some(VOption(None))
      else var v := FromHost(inner.value, some); if v.Some? then Some(VOption(v)) else None
    case (WResult(ok, _), HOk(inner)) =>
      if inner.None? then Some(VOk(None))
      else if ok.None? then None
      else var v := FromHost(inner.value, ok.value); if v.Some? then Some(VOk(v)) else None
    case (WResult(_, err), HErr(inner)) =>
      if inner.None? then Some(VErr(None))
      else if err.None? then None
      else var v := FromHost(inner.value, err.value); if v.Some? then Some(VErr(v)) else None
    case (WFlags(all), HFlags(names)) => if (forall n | n in names :: n in all) then Some(VFlags(Bits(all, names))) else None
    case (WHandle(_, _), HHandle(uri, id, instance)) => Some(VHandle(uri, id, instance))
    case _ => None
  }

  function AllFromHost(hs: seq<HostValue>, ts: seq<WitType>): (r: Option<seq<Value>>)
    requires hide *; |hs| == |ts|
    ensures r.Some? ==> |r.value| == |hs|
    decreases hs
  {
    if hs == [] then Some([]) else
    var v, vs := FromHost(hs[0], ts[0]), AllFromHost(hs[1..], ts[1..]);
    if v.Some? && vs.Some? then Some([v.value] + vs.value) else None
  }

  /** Names must be those of the type, in its order. */
  function FieldsFromHost(pairs: seq<Field<HostValue>>, fields: seq<Field<WitType>>): (r: Option<seq<Value>>)
    requires hide *; |pairs| == |fields|
    ensures r.Some? ==> |r.value| == |pairs|
    decreases pairs
  {
    if pairs == [] then Some([])
    else if pairs[0].name != fields[0].name then None
    else
      var v, vs := FromHost(pairs[0].of, fields[0].of), FieldsFromHost(pairs[1..], fields[1..]);
      if v.Some? && vs.Some? then Some([v.value] + vs.value) else None
  }

  /** The bit of a name is set when it is among the given ones; of equal names only the first. */
  function Bits(all: seq<string>, names: seq<string>): (bits: seq<bool>)
    ensures |bits| == |all|
  {
    seq(|all|, i requires 0 <= i < |all| => all[i] in names && all[i] !in all[..i])
  }

  /** The loop that sets one bit after the other. */
  method SetBits(all: seq<string>, names: seq<string>) returns (r: Option<array<bool>>)
    ensures r.Some? <==> forall n :: n in names ==> n in all
    ensures r.Some? ==> fresh(r.value) && r.value[..] == Bits(all, names)
  {
    var bits := new bool[|all|](_ => false);
    for k := 0 to |names|
      invariant forall n :: n in names[..k] ==> n in all
      invariant forall i :: 0 <= i < |all| ==> bits[i] == (all[i] in names[..k] && all[i] !in all[..i])
    {
      var i := NameIndex(all, names[k]);
      assert names[..k + 1] == names[..k] + [names[k]];
      if i.None? {
        return None;
      }
      FirstIndex(all, names[k]);
      bits[i.value] := true;
    }
    assert names[..|names|] == names;
    return Some(bits);
  }

  lemma FirstIndex(names: seq<string>, name: string)
    ensures var i := NameIndex(names, name);
            i.Some? ==> name !in names[..i.value]
  {
    if names != [] && names[0] != name {
      FirstIndex(names[1..], name);
      var i := NameIndex(names[1..], name);
      if i.Some? {
        assert names[..i.value + 1] == [names[0]] + names[1..][..i.value];
      }
    }
  }

  // ---------- well-typed values ----------

  predicate HasType(v: Value, t: WitType)
    decreases v
  {
    hide *;
    match (t, v)
    case (WBool, VBool(_)) => true
    case (WNum(k), VNum(l, _)) => k == l
    case (WChr, VChar(_)) => true
    case (WStr, VStr(_)) => true
    case (WList(elem), VList(items)) => AllHaveType(items, seq(|items|, _ => elem))
    case (WRecord(fields), VRecord(items)) => |fields| == |items| && AllHaveType(items, FieldTypes(fields))
    case (WTuple(types), VTuple(items)) => |types| == |items| && AllHaveType(items, types)
    case (WVariant(cases), VVariant(i, payload)) =>
      i < |cases| && payload.Some? == cases[i].of.Some? && (payload.Some? ==> HasType(payload.value, cases[i].of.value))
    case (WEnum(cases), VEnum(i)) => i < |cases|
    case (WFlags(names), VFlags(bits)) => |bits| == |names|
    case (WOption(some), VOption(inner)) => inner.Some? ==> HasType(inner.value, some)
    case (WResult(ok, _), VOk(inner)) => inner.Some? ==> ok.Some? && HasType(inner.value, ok.value)
    case (WResult(_, err), VErr(inner)) => inner.Some? ==> err.Some? && HasType(inner.value, err.value)
    case (WHandle(_, _), VHandle(_, _, _)) => true
    case _ => false
  }

  predicate AllHaveType(vs: seq<Value>, ts: seq<WitType>)
    requires hide *; |vs| == |ts|
    decreases vs
  {
    vs == [] || (HasType(vs[0], ts[0]) && AllHaveType(vs[1..], ts[1..]))
  }

  function CaseNames(cases: seq<Field<Option<WitType>>>): (ns: seq<string>)
    ensures |ns| == |cases|
  {
    seq(|cases|, i requires 0 <= i < |cases| => cases[i].name)
  }

  /** Cases and flags have names of their own, in all parts of the type. */
  predicate NamesApart(t: WitType)
    decreases t
  {
    hide *;
    match t
    case WList(elem) => NamesApart(elem)
    case WTuple(types) => forall x | x in types :: NamesApart(x)
    case WRecord(fields) => forall f | f in fields :: NamesApart(f.of)
    case WFlags(names) => NoRepeats(names)
    case WEnum(cases) => NoRepeats(cases)
    case WOption(some) => NamesApart(some)
    case WResult(ok, err) => (ok.Some? ==> NamesApart(ok.value)) && (err.Some? ==> NamesApart(err.value))
    case WVariant(cases) => NoRepeats(CaseNames(cases)) && forall c | c in cases :: c.of.Some? ==> NamesApart(c.of.value)
    case _ => true
  }

  // ---------- there and back ----------

  lemma CasesAreNames(cases: seq<Field<Option<WitType>>>, name: string)
    ensures CaseIndex(cases, name) == NameIndex(CaseNames(cases), name)
  {
    if cases != [] {
      assert CaseNames(cases)[1..] == CaseNames(cases[1..]);
      CasesAreNames(cases[1..], name);
    }
  }

  lemma IndexOfCase(cases: seq<Field<Option<WitType>>>, i: nat)
    requires i < |cases| && NoRepeats(CaseNames(cases))
    ensures CaseIndex(cases, cases[i].name) == Some(i)
  {
    hide CaseIndex, NameIndex, NoRepeats;
    CasesAreNames(cases, cases[i].name);
    IndexOfName(CaseNames(cases), i);
  }

  lemma IndexOfName(names: seq<string>, i: nat)
    requires i < |names| && NoRepeats(names)
    ensures NameIndex(names, names[i]) == Some(i)
  {
  }

  lemma {:induction false} SetNamesIn(names: seq<string>, bits: seq<bool>)
    requires |names| == |bits|
    ensures forall n :: n in SetNames(names, bits) ==> n in names
    ensures forall i :: 0 <= i < |names| && bits[i] ==> names[i] in SetNames(names, bits)
    ensures NoRepeats(names) ==> forall i :: 0 <= i < |names| && names[i] in SetNames(names, bits) ==> bits[i]
  {
    if names != [] {
      SetNamesIn(names[1..], bits[1..]);
      var rest := SetNames(names[1..], bits[1..]);
      if NoRepeats(names) {
        assert forall i :: 0 < i < |names| ==> names[i] == names[1..][i - 1] && bits[i] == bits[1..][i - 1];
        assert names[0] !in names[1..];
      } else {
        assert forall i :: 0 < i < |names| ==> names[i] == names[1..][i - 1] && bits[i] == bits[1..][i - 1];
      }
    }
  }

  lemma FlagsReturn(names: seq<string>, bits: seq<bool>)
    requires |names| == |bits| && NoRepeats(names)
    ensures Bits(names, SetNames(names, bits)) == bits
  {
    SetNamesIn(names, bits);
  }

  /** A well-typed value always goes out, and comes back as it was. */
  lemma {:induction false} ThereAndBack(v: Value, t: WitType)
    requires hide *; HasType(v, t) && NamesApart(t)
    ensures ToHost(v, t).Some? && FromHost(ToHost(v, t).value, t) == Some(v)
    decreases v, 1
  {
    hide ToHost, FromHost, HasType, NamesApart;
    match t
    case WList(_) => SeveralThereAndBack(v, t);
    case WRecord(_) => SeveralThereAndBack(v, t);
    case WTuple(_) => SeveralThereAndBack(v, t);
    case WVariant(cases) => CaseThereAndBack(v, cases);
    case WOption(some) => OptionThereAndBack(v, some);
    case WResult(_, _) => ResultThereAndBack(v, t);
    case _ => LeafThereAndBack(v, t);
  }

  lemma {:induction false} SeveralThereAndBack(v: Value, t: WitType)
    requires hide *; HasType(v, t) && NamesApart(t) && (t.WList? || t.WRecord? || t.WTuple?)
    ensures ToHost(v, t).Some? && FromHost(ToHost(v, t).value, t) == Some(v)
    decreases v, 0
  {
    hide AllToHost, AllFromHost, FieldsFromHost, AllHaveType, NameIndex, CaseIndex, SetNames, Bits, Digits;
    match (t, v)
    case (WList(elem), VList(items)) => AllThereAndBack(items, seq(|items|, _ => elem));
    case (WRecord(fields), VRecord(items)) => RecordThereAndBack(fields, items);
    case (WTuple(types), VTuple(items)) => AllThereAndBack(items, types);
  }

  lemma {:induction false} CaseThereAndBack(v: Value, cases: seq<Field<Option<WitType>>>)
    requires hide *; HasType(v, WVariant(cases)) && NamesApart(WVariant(cases))
    ensures ToHost(v, WVariant(cases)).Some? && FromHost(ToHost(v, WVariant(cases)).value, WVariant(cases)) == Some(v)
    decreases v, 0
  {
    hide CaseIndex, NoRepeats, CaseNames, Named;
    IndexOfCase(cases, v.idx);
    assert cases[v.idx] in cases;
    if v.payload.Some? {
      ThereAndBack(v.payload.value, cases[v.idx].of.value);
    }
  }

  lemma {:induction false} OptionThereAndBack(v: Value, some: WitType)
    requires hide *; HasType(v, WOption(some)) && NamesApart(WOption(some))
    ensures ToHost(v, WOption(some)).Some? && FromHost(ToHost(v, WOption(some)).value, WOption(some)) == Some(v)
    decreases v, 0
  {
    hide FieldsFromHost;
    if v.inner.Some? {
      ThereAndBack(v.inner.value, some);
    }
  }

  lemma {:induction false} ResultThereAndBack(v: Value, t: WitType)
    requires hide *; HasType(v, t) && NamesApart(t) && t.WResult?
    ensures ToHost(v, t).Some? && FromHost(ToHost(v, t).value, t) == Some(v)
    decreases v, 0
  {
    hide AllHaveType;
    if v.inner.Some? {
      ThereAndBack(v.inner.value, if v.VOk? then t.ok.value else t.err.value);
    }
  }

  predicate IsLeaf(t: WitType) { t.WBool? || t.WNum? || t.WChr? || t.WStr? || t.WEnum? || t.WFlags? || t.WHandle? }

  lemma LeafThereAndBack(v: Value, t: WitType)
    requires hide *; HasType(v, t) && NamesApart(t) && IsLeaf(t)
    ensures ToHost(v, t).Some? && FromHost(ToHost(v, t).value, t) == Some(v)
  {
    hide SetNames, Bits, NameIndex, NoRepeats, CaseIndex;
    match t
    case WEnum(cases) => IndexOfName(cases, v.idx);
    case WFlags(names) =>
      SetNamesIn(names, v.bits);
      FlagsReturn(names, v.bits);
    case WBool =>
    case WNum(_) =>
    case WChr =>
    case WStr =>
    case WHandle(_, _) =>
  }

  lemma LeafBackAndThere(h: HostValue, t: WitType)
    requires hide *; NamesApart(t) && FromHost(h, t).Some? && IsLeaf(t)
    ensures HasType(FromHost(h, t).value, t)
    ensures ToHost(FromHost(h, t).value, t) == Some(Ordered(h, t))
  {
    hide SetNames, Bits, NameIndex, NoRepeats, InOrder;
    match t
    case WFlags(all) => FlagsInOrder(all, h.names);
    case WEnum(_) =>
    case WBool =>
    case WNum(_) =>
    case WChr =>
    case WStr =>
    case WHandle(_, _) =>
  }

  lemma {:induction false} RecordThereAndBack(fields: seq<Field<WitType>>, items: seq<Value>)
    requires hide *;
             |fields| == |items| && AllHaveType(items, FieldTypes(fields)) && (forall f :: f in fields ==> NamesApart(f.of))
    ensures AllToHost(items, FieldTypes(fields)).Some?
    ensures FieldsFromHost(Named(fields, AllToHost(items, FieldTypes(fields)).value), fields) == Some(items)
    decreases items, 2
  {
    hide ToHost, FromHost, AllToHost, AllFromHost, FieldsFromHost, AllHaveType, NamesApart;
    assert forall i :: 0 <= i < |fields| ==> FieldTypes(fields)[i] == fields[i].of && fields[i] in fields;
    AllThereAndBack(items, FieldTypes(fields));
    NamedReturn(AllToHost(items, FieldTypes(fields)).value, fields);
  }

  lemma {:induction false} AllThereAndBack(vs: seq<Value>, ts: seq<WitType>)
    requires hide *; |vs| == |ts| && AllHaveType(vs, ts) && (forall t :: t in ts ==> NamesApart(t))
    ensures AllToHost(vs, ts).Some? && AllFromHost(AllToHost(vs, ts).value, ts) == Some(vs)
    decreases vs, 1
  {
    hide ToHost, FromHost, HasType, NamesApart;
    if vs != [] {
      assert ts[0] in ts;
      ThereAndBack(vs[0], ts[0]);
      AllThereAndBack(vs[1..], ts[1..]);
      var h, hs := ToHost(vs[0], ts[0]).value, AllToHost(vs[1..], ts[1..]).value;
      assert ([h] + hs)[1..] == hs;
      assert vs == [vs[0]] + vs[1..];
    }
  }

  lemma NamedReturn(hs: seq<HostValue>, fields: seq<Field<WitType>>)
    requires hide *; |hs| == |fields|
    ensures FieldsFromHost(Named(fields, hs), fields) == AllFromHost(hs, FieldTypes(fields))
    decreases hs
  {
    hide FromHost;
    if hs != [] {
      assert Named(fields, hs)[1..] == Named(fields[1..], hs[1..]);
      assert FieldTypes(fields)[1..] == FieldTypes(fields[1..]);
      NamedReturn(hs[1..], fields[1..]);
    }
  }

  // ---------- back and there ----------

  /** The given names in declared order, each once. */
  function InOrder(all: seq<string>, names: seq<string>): seq<string> {
    if all == [] then [] else (if all[0] in names then [all[0]] else []) + InOrder(all[1..], names)
  }

  /** The same value with the flags of every part in declared order. */
  function Ordered(h: HostValue, t: WitType): HostValue
    decreases h
  {
    hide *;
    match (t, h)
    case (WList(elem), HList(items)) => HList(AllOrdered(items, seq(|items|, _ => elem)))
    case (WRecord(fields), HRecord(pairs)) =>
      if |fields| != |pairs| then h else HRecord(FieldsOrdered(pairs, fields))
    case (WTuple(types), HTuple(items)) => if |types| != |items| then h else HTuple(AllOrdered(items, types))
    case (WVariant(cases), HVariant(name, payload)) =>
      var i := CaseIndex(cases, name);
      if i.Some? && payload.Some? && cases[i.value].of.Some? then HVariant(name, Some(Ordered(payload.value, cases[i.value].of.value)))
      else h
    case (WOption(some), HOption(inner)) => if inner.Some? then HOption(Some(Ordered(inner.value, some))) else h
    case (WResult(ok, _), HOk(inner)) => if inner.Some? && ok.Some? then HOk(Some(Ordered(inner.value, ok.value))) else h
    case (WResult(_, err), HErr(inner)) => if inner.Some? && err.Some? then HErr(Some(Ordered(inner.value, err.value))) else h
    case (WFlags(all), HFlags(names)) => HFlags(InOrder(all, names))
    case _ => h
  }

  function AllOrdered(hs: seq<HostValue>, ts: seq<WitType>): (r: seq<HostValue>)
    requires hide *; |hs| == |ts|
    ensures |r| == |hs|
    decreases hs
  {
    if hs == [] then [] else [Ordered(hs[0], ts[0])] + AllOrdered(hs[1..], ts[1..])
  }

  function FieldsOrdered(ps: seq<Field<HostValue>>, fields: seq<Field<WitType>>): (r: seq<Field<HostValue>>)
    requires hide *; |ps| == |fields|
    ensures |r| == |ps|
    decreases ps
  {
    if ps == [] then [] else [Field(ps[0].name, Ordered(ps[0].of, fields[0].of))] + FieldsOrdered(ps[1..], fields[1..])
  }

  lemma FlagsInOrder(all: seq<string>, names: seq<string>)
    requires NoRepeats(all)
    ensures SetNames(all, Bits(all, names)) == InOrder(all, names)
  {
    if all != [] {
      assert forall i :: 0 < i < |all| ==> all[i] == all[1..][i - 1] && all[i] != all[0];
      assert Bits(all, names)[1..] == Bits(all[1..], names);
      FlagsInOrder(all[1..], names);
    }
  }

  /** Whatever a host value is accepted as is well typed, and goes out again as that host value, with the flags in
      declared order and without repetitions. */
  lemma {:induction false} BackAndThere(h: HostValue, t: WitType)
    requires hide *; NamesApart(t) && FromHost(h, t).Some?
    ensures HasType(FromHost(h, t).value, t)
    ensures ToHost(FromHost(h, t).value, t) == Some(Ordered(h, t))
    decreases h, 1
  {
    hide ToHost, FromHost, HasType, NamesApart, Ordered;
    match t
    case WList(_) => SeveralBackAndThere(h, t);
    case WRecord(_) => SeveralBackAndThere(h, t);
    case WTuple(_) => SeveralBackAndThere(h, t);
    case WVariant(cases) => CaseBackAndThere(h, cases);
    case WOption(some) => OptionBackAndThere(h, some);
    case WResult(_, _) => ResultBackAndThere(h, t);
    case _ => LeafBackAndThere(h, t);
  }

  lemma {:induction false} SeveralBackAndThere(h: HostValue, t: WitType)
    requires hide *; NamesApart(t) && FromHost(h, t).Some? && (t.WList? || t.WRecord? || t.WTuple?)
    ensures HasType(FromHost(h, t).value, t)
    ensures ToHost(FromHost(h, t).value, t) == Some(Ordered(h, t))
    decreases h, 0
  {
    hide AllToHost, AllFromHost, FieldsFromHost, AllHaveType, AllOrdered, FieldsOrdered, NameIndex, CaseIndex,
         SetNames, Bits, InOrder;
    match (t, h)
    case (WList(elem), HList(items)) => AllBackAndThere(items, seq(|items|, _ => elem));
    case (WRecord(fields), HRecord(pairs)) => RecordBackAndThere(pairs, fields);
    case (WTuple(types), HTuple(items)) => AllBackAndThere(items, types);
  }

  lemma {:induction false} CaseBackAndThere(h: HostValue, cases: seq<Field<Option<WitType>>>)
    requires hide *; NamesApart(WVariant(cases)) && FromHost(h, WVariant(cases)).Some?
    ensures HasType(FromHost(h, WVariant(cases)).value, WVariant(cases))
    ensures ToHost(FromHost(h, WVariant(cases)).value, WVariant(cases)) == Some(Ordered(h, WVariant(cases)))
    decreases h, 0
  {
    hide NoRepeats, CaseNames, AllFromHost;
    var i := CaseIndex(cases, h.name).value;
    assert cases[i] in cases;
    if h.payload.Some? {
      BackAndThere(h.payload.value, cases[i].of.value);
    }
  }

  lemma {:induction false} OptionBackAndThere(h: HostValue, some: WitType)
    requires hide *; NamesApart(WOption(some)) && FromHost(h, WOption(some)).Some?
    ensures HasType(FromHost(h, WOption(some)).value, WOption(some))
    ensures ToHost(FromHost(h, WOption(some)).value, WOption(some)) == Some(Ordered(h, WOption(some)))
    decreases h, 0
  {
    hide NameIndex;
    if h.inner.Some? {
      BackAndThere(h.inner.value, some);
    }
  }

  lemma {:induction false} ResultBackAndThere(h: HostValue, t: WitType)
    requires hide *; NamesApart(t) && FromHost(h, t).Some? && t.WResult?
    ensures HasType(FromHost(h, t).value, t)
    ensures ToHost(FromHost(h, t).value, t) == Some(Ordered(h, t))
    decreases h, 0
  {
    hide AllFromHost;
    if h.inner.Some? {
      BackAndThere(h.inner.value, if h.HOk? then t.ok.value else t.err.value);
    }
  }

  lemma {:induction false} AllBackAndThere(hs: seq<HostValue>, ts: seq<WitType>)
    requires hide *; |hs| == |ts| && (forall t :: t in ts ==> NamesApart(t)) && AllFromHost(hs, ts).Some?
    ensures AllHaveType(AllFromHost(hs, ts).value, ts)
    ensures AllToHost(AllFromHost(hs, ts).value, ts) == Some(AllOrdered(hs, ts))
    decreases hs, 1
  {
    hide ToHost, FromHost, HasType, NamesApart, Ordered;
    if hs != [] {
      assert ts[0] in ts;
      BackAndThere(hs[0], ts[0]);
      AllBackAndThere(hs[1..], ts[1..]);
      var v, vs := FromHost(hs[0], ts[0]).value, AllFromHost(hs[1..], ts[1..]).value;
      assert ([v] + vs)[1..] == vs;
    }
  }

  lemma {:induction false} RecordBackAndThere(ps: seq<Field<HostValue>>, fields: seq<Field<WitType>>)
    requires hide *;
             |ps| == |fields| && (forall f :: f in fields ==> NamesApart(f.of)) && FieldsFromHost(ps, fields).Some?
    ensures var vs := FieldsFromHost(ps, fields).value;
            && AllHaveType(vs, FieldTypes(fields)) && AllToHost(vs, FieldTypes(fields)).Some?
            && Named(fields, AllToHost(vs, FieldTypes(fields)).value) == FieldsOrdered(ps, fields)
    decreases ps, 1
  {
    hide ToHost, FromHost, HasType, NamesApart, Ordered;
    if ps != [] {
      assert fields[0] in fields;
      BackAndThere(ps[0].of, fields[0].of);
      RecordBackAndThere(ps[1..], fields[1..]);
      var v, vs := FromHost(ps[0].of, fields[0].of).value, FieldsFromHost(ps[1..], fields[1..]).value;
      assert ([v] + vs)[1..] == vs;
      assert FieldTypes(fields)[1..] == FieldTypes(fields[1..]) && FieldTypes(fields)[0] == fields[0].of;
      var h, hs := Ordered(ps[0].of, fields[0].of), AllToHost(vs, FieldTypes(fields[1..])).value;
      assert Named(fields, [h] + hs) == [Field(fields[0].name, h)] + Named(fields[1..], hs);
    }
  }

  /** Values of a type the host can give are exactly the well-typed ones. */
  lemma GoesOutExactly(v: Value, t: WitType)
    requires NamesApart(t)
    ensures (exists h :: FromHost(h, t) == Some(v)) <==> HasType(v, t)
  {
    hide ToHost, FromHost, HasType, NamesApart, Ordered;
    if HasType(v, t) {
      ThereAndBack(v, t);
    }
    forall h | FromHost(h, t) == Some(v) ensures HasType(v, t) {
      BackAndThere(h, t);
    }
  }
}
