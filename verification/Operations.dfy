/** What the operations on values compute, in plain arithmetic and by index. */
module Operations {
  import opened Syntax
  import opened Values

  // ---------- numbers ----------

  const SIGNED: set<NumberKind> := {S8, S16, S32, S64}
  const UNSIGNED: set<NumberKind> := {U8, U16, U32, U64}
  const FLOATS: set<NumberKind> := {F32, F64}

  /** The value range of a kind; floats are exact. */
  predicate InRange(k: NumberKind, i: int) {
    match k
    case S8 => -128 <= i < 128
    case U8 => 0 <= i < 256
    case S16 => -32768 <= i < 32768
    case U16 => 0 <= i < 65536
    case S32 => -2147483648 <= i < 2147483648
    case U32 => 0 <= i < 4294967296
    case S64 => -9223372036854775808 <= i < 9223372036854775808
    case U64 => 0 <= i < 18446744073709551616
    case F32 => true
    case F64 => true
  }

  lemma RangesAre(k: NumberKind, i: int)
    ensures k !in FLOATS ==> (MinOf(k) <= i <= MaxOf(k) <==> InRange(k, i))
    ensures k in FLOATS ==> InRange(k, i)
    ensures (IsSigned(k) <==> k in SIGNED) && (IsFloat(k) <==> k in FLOATS)
    ensures k in SIGNED || k in UNSIGNED || k in FLOATS
  {
  }

  predicate IsNumber(v: StackValue, k: NumberKind, n: real) { v.Val? && v.vt.value == VNum(k, n) }

  /** The number at the target type, if the carrier of 64 bits has it and the target does. */
  function Carried(t: WitType, carrier: NumberKind, i: int): Option<StackValue>
    requires t.WNum?
  {
    if InRange(carrier, i) && InRange(t.num, i) then Some(Val(VT(VNum(t.num, i as real), t))) else None
  }

  /** Division that rounds towards zero. */
  predicate Quotient(a: int, b: int, q: int) {
    var r := a - q * b;
    (if r < 0 then -r else r) < (if b < 0 then -b else b) && (r == 0 || (r < 0) == (a < 0))
  }

  lemma TruncatedQuotient(a: int, b: int)
    requires b != 0
    ensures Quotient(a, b, TruncDiv(a, b))
  {
    var x, y := if a < 0 then -a else a, if b < 0 then -b else b;
    var q := x / y;
    assert x == q * y + x % y;
    Signs(q, y);
  }

  lemma Signs(q: int, y: int)
    ensures -(q * y) == (-q) * y == q * (-y) && q * y == (-q) * (-y)
  {
  }

  /** There is only one such quotient. */
  lemma {:induction false} OneQuotient(a: int, b: int, p: int, q: int)
    requires b != 0 && Quotient(a, b, p) && Quotient(a, b, q)
    ensures p == q
  {
    var y := if b < 0 then -b else b;
    var d := (p - q) * b;
    assert d == (a - q * b) - (a - p * b);
    assert -y < d < y;
    if p != q {
      Larger(p - q, b);
    }
  }

  lemma Larger(d: int, b: int)
    requires d != 0
    ensures (if d * b < 0 then -(d * b) else d * b) >= (if b < 0 then -b else b)
  {
    if d > 0 {
      Scaled(d, b);
    } else {
      Scaled(-d, b);
      Signs(d, b);
    }
  }

  lemma Scaled(d: int, b: int)
    requires d > 0
    ensures b >= 0 ==> d * b >= b
    ensures b <= 0 ==> d * b <= b
  {
    assert d * b == b + (d - 1) * b;
    if b >= 0 {
      assert (d - 1) * b >= 0;
    } else {
      assert (d - 1) * b <= 0;
    }
  }

  lemma {:induction false} IntegersCompute(op: MathOp, a: int, b: int, t: WitType, l: StackValue, r: StackValue,
                                           k: NumberKind, m: NumberKind)
    requires hide *; t.WNum? && IsNumber(l, k, a as real) && IsNumber(r, m, b as real)
    requires k !in FLOATS && m !in FLOATS && (k in SIGNED <==> m in SIGNED)
    ensures MathValues(op, t, l, r)
            == var c := IntOp(op, a, b); if c.None? then None else Carried(t, if k in SIGNED then S64 else U64, c.value)
  {
    hide IntOp, MinOf, MaxOf, InRange, IsFloat, IsSigned;
    RangesAre(k, 0);
    RangesAre(m, 0);
    var c := IntOp(op, a, b);
    if c.Some? {
      RangesAre(S64, c.value);
      RangesAre(U64, c.value);
      RangesAre(t.num, c.value);
    }
    assert (a as real).Floor == a && (b as real).Floor == b;
  }

  /** Two signed or two unsigned integers: there is a value exactly if the result fits 64 bits and the target. Division
      rounds towards zero and fails for zero. */
  lemma {:induction false} IntegerMath(t: WitType, l: StackValue, r: StackValue, k: NumberKind, a: int, m: NumberKind,
                                       b: int)
    requires hide *; t.WNum? && IsNumber(l, k, a as real) && IsNumber(r, m, b as real)
    requires (k in SIGNED && m in SIGNED) || (k in UNSIGNED && m in UNSIGNED)
    ensures MathValues(Plus, t, l, r) == Carried(t, if k in SIGNED then S64 else U64, a + b)
    ensures MathValues(Minus, t, l, r) == Carried(t, if k in SIGNED then S64 else U64, a - b)
    ensures MathValues(Multiply, t, l, r) == Carried(t, if k in SIGNED then S64 else U64, a * b)
    ensures b == 0 ==> MathValues(Divide, t, l, r) == None
    ensures b != 0 ==>
      exists q :: Quotient(a, b, q) && MathValues(Divide, t, l, r) == Carried(t, if k in SIGNED then S64 else U64, q)
  {
    hide MathValues, Carried, Quotient, TruncDiv, IsNumber;
    IntegersCompute(Plus, a, b, t, l, r, k, m);
    IntegersCompute(Minus, a, b, t, l, r, k, m);
    IntegersCompute(Multiply, a, b, t, l, r, k, m);
    IntegersCompute(Divide, a, b, t, l, r, k, m);
    if b != 0 {
      TruncatedQuotient(a, b);
    }
  }

  /** An unsigned number beside a signed one is read as a signed one of 64 bits. */
  function Reread(k: NumberKind, i: int): int { if k in UNSIGNED && i >= 9223372036854775808 then i - 18446744073709551616 else i }

  lemma Rereads(i: int)
    ensures AsSigned(i) == if i >= 9223372036854775808 then i - 18446744073709551616 else i
  {
  }

  lemma {:induction false} MixedCompute(op: MathOp, a: int, b: int, t: WitType, l: StackValue, r: StackValue, k: NumberKind,
                                        m: NumberKind)
    requires hide *; t.WNum? && IsNumber(l, k, a as real) && IsNumber(r, m, b as real)
    requires (k in SIGNED && m in UNSIGNED) || (k in UNSIGNED && m in SIGNED)
    ensures MathValues(op, t, l, r)
            == var c := IntOp(op, Reread(k, a), Reread(m, b)); if c.None? then None else Carried(t, S64, c.value)
  {
    hide IntOp, MinOf, MaxOf, InRange, IsFloat, IsSigned, AsSigned;
    Rereads(a);
    Rereads(b);
    RangesAre(k, 0);
    RangesAre(m, 0);
    var c := IntOp(op, Reread(k, a), Reread(m, b));
    if c.Some? {
      RangesAre(S64, c.value);
      RangesAre(t.num, c.value);
    }
    assert (a as real).Floor == a && (b as real).Floor == b;
  }

  lemma {:induction false} MixedMath(t: WitType, l: StackValue, r: StackValue, k: NumberKind, i: int, m: NumberKind, j: int)
    requires hide *; t.WNum? && IsNumber(l, k, i as real) && IsNumber(r, m, j as real)
    requires (k in SIGNED && m in UNSIGNED) || (k in UNSIGNED && m in SIGNED)
    ensures var a, b := Reread(k, i), Reread(m, j);
            && MathValues(Plus, t, l, r) == Carried(t, S64, a + b)
            && MathValues(Minus, t, l, r) == Carried(t, S64, a - b)
            && MathValues(Multiply, t, l, r) == Carried(t, S64, a * b)
            && (b == 0 ==> MathValues(Divide, t, l, r) == None)
            && (b != 0 ==> exists q :: Quotient(a, b, q) && MathValues(Divide, t, l, r) == Carried(t, S64, q))
  {
    hide MathValues, Carried, Quotient, TruncDiv, IsNumber, Reread;
    MixedCompute(Plus, i, j, t, l, r, k, m);
    MixedCompute(Minus, i, j, t, l, r, k, m);
    MixedCompute(Multiply, i, j, t, l, r, k, m);
    MixedCompute(Divide, i, j, t, l, r, k, m);
    if Reread(m, j) != 0 {
      TruncatedQuotient(Reread(k, i), Reread(m, j));
    }
  }

  /** A fraction at the target type; of the integers only those of 64 bits take one, if it is whole and fits. */
  function Exactly(t: WitType, x: real): Option<StackValue>
    requires t.WNum?
  {
    if t.num in FLOATS || (t.num in {S64, U64} && x.Floor as real == x && InRange(t.num, x.Floor)) then Some(Val(VT(VNum(t.num, x), t)))
    else None
  }

  /** With a float on one side everything is computed with fractions. */
  lemma {:induction false} FractionsCompute(op: MathOp, x: real, y: real, t: WitType, l: StackValue, r: StackValue,
                                            k: NumberKind, m: NumberKind)
    requires hide *; t.WNum? && IsNumber(l, k, x) && IsNumber(r, m, y) && (k in FLOATS || m in FLOATS)
    requires (k in FLOATS || x.Floor as real == x) && (m in FLOATS || y.Floor as real == y)
    ensures MathValues(op, t, l, r) == var c := RealOp(op, x, y); if c.None? then None else Exactly(t, c.value)
  {
    hide RealOp, MinOf, MaxOf, InRange;
    RangesAre(k, 0);
    RangesAre(m, 0);
    RangesAre(t.num, 0);
    var c := RealOp(op, x, y);
    if c.Some? {
      RangesAre(t.num, c.value.Floor);
    }
  }

  predicate IsNumeric(v: StackValue) { v.Val? && v.vt.value.VNum? }

  /** Nothing else is a number, and no other type takes one. */
  lemma {:induction false} OnlyNumbers(op: MathOp, t: WitType, l: StackValue, r: StackValue)
    requires hide *; !IsNumeric(l) || !IsNumeric(r) || !t.WNum?
    ensures MathValues(op, t, l, r) == None
  {
    hide Compute;
  }

  /** The number in a value; the integer kinds hold whole numbers. */
  function Amount(v: StackValue): real
    requires IsNumeric(v)
  {
    if v.vt.value.kind in FLOATS then v.vt.value.n else v.vt.value.n.Floor as real
  }

  /** All of the above: the result of an operation on any two values, in plain arithmetic. */
  ghost predicate Calculates(op: MathOp, t: WitType, l: StackValue, r: StackValue, result: Option<StackValue>) {
    if !IsNumeric(l) || !IsNumeric(r) || !t.WNum? then result == None else
    var k, m := l.vt.value.kind, r.vt.value.kind;
    var x, y := Amount(l), Amount(r);
    if k in FLOATS || m in FLOATS then
      Fractional(op, t, x, y, result)
    else
      var unsigned := k in UNSIGNED && m in UNSIGNED;
      var a, b := if unsigned then x.Floor else Reread(k, x.Floor), if unsigned then y.Floor else Reread(m, y.Floor);
      Whole(op, t, if unsigned then U64 else S64, a, b, result)
  }

  predicate Fractional(op: MathOp, t: WitType, x: real, y: real, result: Option<StackValue>)
    requires t.WNum?
  {
    match op
    case Plus => result == Exactly(t, x + y)
    case Minus => result == Exactly(t, x - y)
    case Multiply => result == Exactly(t, x * y)
    case Divide => result == if y == 0.0 then None else Exactly(t, x / y)
  }

  ghost predicate Whole(op: MathOp, t: WitType, carrier: NumberKind, a: int, b: int, result: Option<StackValue>)
    requires t.WNum?
  {
    match op
    case Plus => result == Carried(t, carrier, a + b)
    case Minus => result == Carried(t, carrier, a - b)
    case Multiply => result == Carried(t, carrier, a * b)
    case Divide => if b == 0 then result == None else exists q :: Quotient(a, b, q) && result == Carried(t, carrier, q)
  }

  /** A value of an integer kind without its fraction, which it never has. */
  function Rounded(v: StackValue): StackValue
    requires IsNumeric(v)
  {
    Val(VT(VNum(v.vt.value.kind, Amount(v)), v.vt.typ))
  }

  lemma {:induction false} MathRounds(op: MathOp, t: WitType, l: StackValue, r: StackValue)
    requires IsNumeric(l) && IsNumeric(r)
    ensures MathValues(op, t, l, r) == MathValues(op, t, Rounded(l), Rounded(r))
    ensures IsNumber(Rounded(l), l.vt.value.kind, Amount(l)) && IsNumber(Rounded(r), r.vt.value.kind, Amount(r))
  {
    hide Compute, CastTo;
    RangesAre(l.vt.value.kind, 0);
    RangesAre(r.vt.value.kind, 0);
  }

  lemma {:induction false} WholeCalculates(op: MathOp, t: WitType, l: StackValue, r: StackValue, k: NumberKind, a: int,
                                           m: NumberKind, b: int)
    requires hide *; t.WNum? && IsNumber(l, k, a as real) && IsNumber(r, m, b as real) && k !in FLOATS && m !in FLOATS
    ensures var unsigned := k in UNSIGNED && m in UNSIGNED;
            Whole(op, t, if unsigned then U64 else S64, if unsigned then a else Reread(k, a), if unsigned then b else Reread(m, b),
                  MathValues(op, t, l, r))
  {
    hide MathValues, Carried, Quotient, IsNumber;
    RangesAre(k, 0);
    RangesAre(m, 0);
    if (k in UNSIGNED) == (m in UNSIGNED) {
      IntegerMath(t, l, r, k, a, m, b);
    } else {
      MixedMath(t, l, r, k, a, m, b);
    }
  }

  lemma {:induction false} FractionsCalculate(op: MathOp, t: WitType, l: StackValue, r: StackValue, k: NumberKind, x: real,
                                              m: NumberKind, y: real)
    requires hide *; t.WNum? && IsNumber(l, k, x) && IsNumber(r, m, y) && (k in FLOATS || m in FLOATS)
    requires (k in FLOATS || x.Floor as real == x) && (m in FLOATS || y.Floor as real == y)
    ensures Fractional(op, t, x, y, MathValues(op, t, l, r))
  {
    hide MathValues, Exactly, IsNumber;
    FractionsCompute(op, x, y, t, l, r, k, m);
  }

  lemma {:induction false} MathCalculates(op: MathOp, t: WitType, l: StackValue, r: StackValue)
    ensures Calculates(op, t, l, r, MathValues(op, t, l, r))
  {
    hide MathValues, IsNumber, Rounded, Reread, Whole, Fractional;
    if !IsNumeric(l) || !IsNumeric(r) || !t.WNum? {
      OnlyNumbers(op, t, l, r);
    } else {
      MathRounds(op, t, l, r);
      var k, m := l.vt.value.kind, r.vt.value.kind;
      var x, y := Amount(l), Amount(r);
      if k in FLOATS || m in FLOATS {
        FractionsCalculate(op, t, Rounded(l), Rounded(r), k, x, m, y);
      } else {
        WholeCalculates(op, t, Rounded(l), Rounded(r), k, x.Floor, m, y.Floor);
      }
    }
  }

  // ---------- comparison ----------

  /** Numbers are compared by size, across all kinds. */
  lemma {:induction false} NumbersCompare(l: StackValue, r: StackValue, k: NumberKind, x: real, m: NumberKind, y: real)
    requires hide *; IsNumber(l, k, x) && IsNumber(r, m, y)
    ensures CompareValues(EqualTo, l, r) == Some(Val(VT(VBool(x == y), WBool)))
    ensures CompareValues(LessThan, l, r) == Some(Val(VT(VBool(x < y), WBool)))
    ensures CompareValues(GreaterThan, l, r) == Some(Val(VT(VBool(x > y), WBool)))
    ensures CompareValues(LessThanOrEqualTo, l, r) == Some(Val(VT(VBool(x <= y), WBool)))
    ensures CompareValues(GreaterThanOrEqualTo, l, r) == Some(Val(VT(VBool(x >= y), WBool)))
  {
    assert GetLiteral(l.vt) == Some(LNum(x)) && GetLiteral(r.vt) == Some(LNum(y));
  }

  /** Up to some place the texts are the same; there the first one ends before the second, or has the smaller character. */
  ghost predicate Before(a: string, b: string) { exists n :: PartAt(a, b, n) }

  predicate PartAt(a: string, b: string, n: int) {
    0 <= n <= |a| && n < |b| && a[..n] == b[..n] && (n == |a| || a[n] < b[n])
  }

  lemma {:induction false} LexIsBefore(a: string, b: string)
    ensures LexLess(a, b) <==> Before(a, b)
    decreases |a|
  {
    if b == [] {
    } else if a == [] {
      assert PartAt(a, b, 0);
    } else {
      LexIsBefore(a[1..], b[1..]);
      if LexLess(a, b) {
        if a[0] < b[0] {
          assert PartAt(a, b, 0);
        } else {
          var n :| PartAt(a[1..], b[1..], n);
          assert a[..n + 1] == [a[0]] + a[1..][..n] && b[..n + 1] == [b[0]] + b[1..][..n];
          assert PartAt(a, b, n + 1);
        }
      }
      if Before(a, b) {
        var n :| PartAt(a, b, n);
        if n > 0 {
          assert a[0] == a[..n][0] && b[0] == b[..n][0];
          assert a[1..][..n - 1] == a[..n][1..] && b[1..][..n - 1] == b[..n][1..];
          assert PartAt(a[1..], b[1..], n - 1);
        }
      }
    }
  }

  /** A strict total order. */
  lemma BeforeOrders(a: string, b: string, c: string)
    ensures !Before(a, a)
    ensures Before(a, b) && Before(b, c) ==> Before(a, c)
    ensures Before(a, b) || a == b || Before(b, a)
    ensures !(Before(a, b) && Before(b, a))
  {
    hide Before;
    LexIsBefore(a, a);
    LexIsBefore(a, b);
    LexIsBefore(b, c);
    LexIsBefore(a, c);
    LexIsBefore(b, a);
    LexOrders(a, b, c);
  }

  lemma {:induction false} LexOrders(a: string, b: string, c: string)
    ensures !LexLess(a, a)
    ensures LexLess(a, b) && LexLess(b, c) ==> LexLess(a, c)
    ensures LexLess(a, b) || a == b || LexLess(b, a)
    ensures !(LexLess(a, b) && LexLess(b, a))
    decreases |a| + |b| + |c|
  {
    if a != [] {
      LexOrders(a[1..], if b == [] then [] else b[1..], if c == [] then [] else c[1..]);
      if b != [] && a[0] == b[0] && a[1..] == b[1..] {
        assert a == [a[0]] + a[1..] && b == [b[0]] + b[1..];
      }
    }
  }

  /** Texts, and what counts as one: characters, enums, and cases of variants without payload. */
  predicate Reads(v: StackValue, s: string) {
    v.Val? &&
    match v.vt
    case VT(VStr(x), _) => s == x
    case VT(VChar(c), _) => s == [c]
    case VT(VEnum(i), WEnum(cases)) => i < |cases| && s == cases[i]
    case VT(VVariant(i, None), WVariant(cases)) => i < |cases| && s == cases[i].name
    case _ => false
  }

  lemma {:induction false} TextsCompare(l: StackValue, r: StackValue, a: string, b: string)
    requires hide *; Reads(l, a) && Reads(r, b)
    ensures CompareValues(EqualTo, l, r) == Some(Val(VT(VBool(a == b), WBool)))
    ensures CompareValues(LessThan, l, r) == Some(Val(VT(VBool(Before(a, b)), WBool)))
    ensures CompareValues(GreaterThan, l, r) == Some(Val(VT(VBool(Before(b, a)), WBool)))
    ensures CompareValues(LessThanOrEqualTo, l, r) == Some(Val(VT(VBool(a == b || Before(a, b)), WBool)))
    ensures CompareValues(GreaterThanOrEqualTo, l, r) == Some(Val(VT(VBool(a == b || Before(b, a)), WBool)))
  {
    hide LexLess, Before;
    TextLiteral(l, a);
    TextLiteral(r, b);
    LexIsBefore(a, b);
    LexIsBefore(b, a);
  }

  lemma TextLiteral(v: StackValue, s: string)
    requires hide *; Reads(v, s)
    ensures v.Val? && GetLiteral(v.vt) == Some(LStr(s))
  {
  }

  /** False comes before true. */
  lemma {:induction false} BoolsCompare(l: StackValue, r: StackValue, a: bool, b: bool)
    requires hide *; IsBool(l, a) && IsBool(r, b)
    ensures CompareValues(EqualTo, l, r) == Some(Val(VT(VBool(a == b), WBool)))
    ensures CompareValues(LessThan, l, r) == Some(Val(VT(VBool(!a && b), WBool)))
    ensures CompareValues(GreaterThan, l, r) == Some(Val(VT(VBool(a && !b), WBool)))
    ensures CompareValues(LessThanOrEqualTo, l, r) == Some(Val(VT(VBool(!a || b), WBool)))
    ensures CompareValues(GreaterThanOrEqualTo, l, r) == Some(Val(VT(VBool(a || !b), WBool)))
  {
    assert GetLiteral(l.vt) == Some(LBool(a)) && GetLiteral(r.vt) == Some(LBool(b));
  }

  /** Of different sorts, numbers come first, then texts, then booleans. */
  lemma {:induction false} SortsCompare(op: CmpOp, n: StackValue, s: StackValue, b: StackValue, k: NumberKind, x: real,
                                        text: string, flag: bool)
    requires hide *; IsNumber(n, k, x) && Reads(s, text) && IsBool(b, flag)
    ensures var less := op.LessThan? || op.LessThanOrEqualTo?;
            && CompareValues(op, n, s) == Some(Val(VT(VBool(less), WBool)))
            && CompareValues(op, s, b) == Some(Val(VT(VBool(less), WBool)))
            && CompareValues(op, n, b) == Some(Val(VT(VBool(less), WBool)))
    ensures var more := op.GreaterThan? || op.GreaterThanOrEqualTo?;
            && CompareValues(op, s, n) == Some(Val(VT(VBool(more), WBool)))
            && CompareValues(op, b, s) == Some(Val(VT(VBool(more), WBool)))
            && CompareValues(op, b, n) == Some(Val(VT(VBool(more), WBool)))
  {
    hide Reads;
    TextLiteral(s, text);
    assert GetLiteral(n.vt) == Some(LNum(x)) && GetLiteral(b.vt) == Some(LBool(flag));
  }

  /** Payloads of the same case are compared; other cases are never related, and flags only when they are equal. */
  lemma {:induction false} CasesCompare(op: CmpOp, i: nat, x: Value, cs: seq<Field<Option<WitType>>>, j: nat, y: Value,
                                        ds: seq<Field<Option<WitType>>>)
    requires i < |cs| && j < |ds| && cs[i].of.Some? && ds[j].of.Some?
    ensures CompareValues(op, Val(VT(VVariant(i, Some(x)), WVariant(cs))), Val(VT(VVariant(j, Some(y)), WVariant(ds))))
            == if i == j then CompareValues(op, Val(VT(x, cs[i].of.value)), Val(VT(y, ds[j].of.value)))
               else Some(Val(VT(VBool(false), WBool)))
  {
    hide CompareLiterals;
  }

  /** Units are equal in every respect, and a value is never compared with nothing. */
  lemma UnitsCompare(op: CmpOp, v: ValueAndType)
    ensures CompareValues(op, Unit, Unit) == Some(Val(VT(VBool(true), WBool)))
    ensures CompareValues(op, Val(v), Unit) == None && CompareValues(op, Unit, Val(v)) == None
  {
  }

  /** Cases with and without payload, and enums without names: another case is never related, the same one always. */
  lemma {:induction false} BareCasesCompare(op: CmpOp, i: nat, x: Value, cs: seq<Field<Option<WitType>>>, j: nat,
                                            ds: seq<Field<Option<WitType>>>, t: WitType, u: WitType)
    ensures CompareValues(op, Val(VT(VVariant(i, Some(x)), WVariant(cs))), Val(VT(VVariant(j, None), WVariant(ds))))
            == Some(Val(VT(VBool(i == j), WBool)))
    ensures !t.WEnum? ==> CompareValues(op, Val(VT(VEnum(i), t)), Val(VT(VEnum(j), u))) == Some(Val(VT(VBool(i == j), WBool)))
  {
  }

  lemma {:induction false} FlagsCompare(op: CmpOp, a: seq<bool>, t: WitType, b: seq<bool>, u: WitType)
    ensures CompareValues(op, Val(VT(VFlags(a), t)), Val(VT(VFlags(b), u))) == Some(Val(VT(VBool(a == b), WBool)))
  {
  }

  // ---------- values with parts ----------

  /** What constructors make, by name. */
  lemma Constructors(t: WitType, v: StackValue)
    ensures v.Val? && t.WOption? ==> MakeSomeOf(t, v) == Some(Val(VT(VOption(Some(v.vt.value)), t)))
    ensures v.Val? && t.WResult? ==> MakeOkOf(t, v) == Some(Val(VT(VOk(Some(v.vt.value)), t)))
    ensures v.Val? && t.WResult? ==> MakeErrOf(t, v) == Some(Val(VT(VErr(Some(v.vt.value)), t)))
  {
  }

  /** Negation and length, the missing payload, and the tag of what has none. */
  lemma {:induction false} PlainResults(b: bool, items: seq<Value>, t: WitType, vt: ValueAndType)
    ensures Negated(Val(VT(VBool(b), t))) == Some(Val(VT(VBool(!b), WBool)))
    ensures LengthOf(Val(VT(VList(items), t))) == Some(Val(VT(VNum(U64, |items| as real), WNum(U64))))
    ensures MakeNoneOf(None) == Some(Val(VT(VOption(None), WOption(WStr))))
    ensures t.WOption? ==> MakeNoneOf(Some(t)) == Some(Val(VT(VOption(None), WOption(t)))) && TagOf(MakeNoneOf(Some(t)).value) == Some(Val(StrVT("none")))
    ensures !(vt.value.VOption? || vt.value.VOk? || vt.value.VErr? || vt.value.VVariant? || vt.value.VEnum?) ==>
      TagOf(Val(vt)) == Some(Val(StrVT("untagged")))
  {
  }

  /** A value that is wrapped is what is unwrapped, and the tag says how it was wrapped. */
  lemma {:induction false} WrapUnwrap(vt: ValueAndType, t: WitType)
    ensures t.WOption? && t.some == vt.typ ==>
      var x := MakeSomeOf(t, Val(vt)); x.Some? && UnwrapValue(x.value) == Some(Val(vt)) && TagOf(x.value) == Some(Val(StrVT("some")))
    ensures t.WResult? && t.ok == Some(vt.typ) ==>
      var x := MakeOkOf(t, Val(vt)); x.Some? && UnwrapValue(x.value) == Some(Val(vt)) && TagOf(x.value) == Some(Val(StrVT("ok")))
    ensures t.WResult? && t.err == Some(vt.typ) ==>
      var x := MakeErrOf(t, Val(vt)); x.Some? && UnwrapValue(x.value) == Some(Val(vt)) && TagOf(x.value) == Some(Val(StrVT("err")))
  {
  }

  /** The first case with its name. */
  predicate FirstNamed(cases: seq<Field<Option<WitType>>>, i: nat) {
    i < |cases| && forall j :: 0 <= j < i ==> cases[j].name != cases[i].name
  }

  lemma {:induction false} CaseFound(cases: seq<Field<Option<WitType>>>, i: nat)
    requires FirstNamed(cases, i)
    ensures CaseIndex(cases, cases[i].name) == Some(i) && CasePayload(WVariant(cases), cases[i].name) == cases[i].of
    decreases |cases|
  {
    if i > 0 {
      CaseFound(cases[1..], i - 1);
    }
  }

  /** A case is found by its name, carries its payload, and its tag is its name. */
  lemma VariantMade(cases: seq<Field<Option<WitType>>>, i: nat, vt: ValueAndType)
    requires FirstNamed(cases, i)
    ensures var x := MakeVariant(cases[i].name, WVariant(cases), Some(Val(vt)));
            && x == Some(Val(VT(VVariant(i, Some(vt.value)), WVariant(cases)))) && TagOf(x.value) == Some(Val(StrVT(cases[i].name)))
            && (cases[i].of == Some(vt.typ) ==> UnwrapValue(x.value) == Some(Val(vt)))
  {
    CaseFound(cases, i);
  }

  lemma PlainCaseMade(cases: seq<Field<Option<WitType>>>, i: nat)
    requires FirstNamed(cases, i)
    ensures var x := MakeVariant(cases[i].name, WVariant(cases), None);
            x == Some(Val(VT(VVariant(i, None), WVariant(cases)))) && TagOf(x.value) == Some(Val(StrVT(cases[i].name)))
  {
    CaseFound(cases, i);
  }

  lemma EnumMade(name: string, t: WitType)
    requires t.WEnum? && name in t.cases
    ensures var x := MakeEnum(name, t); x.Some? && TagOf(x.value) == Some(Val(StrVT(name))) && Reads(x.value, name)
  {
  }

  /** Texts and characters are themselves, and everything else is printed. */
  function TextOf(text: ValueAndType -> string, vt: ValueAndType): string {
    if vt.value.VStr? then vt.value.s else if vt.value.VChar? then [vt.value.c] else text(vt)
  }

  lemma FirstText(text: ValueAndType -> string, vts: seq<ValueAndType>)
    requires vts != []
    ensures ConcatText(text, vts) == TextOf(text, vts[0]) + ConcatText(text, vts[1..])
  {
  }

  /** The texts one behind the other. */
  lemma {:induction false} TextsJoin(text: ValueAndType -> string, vts: seq<ValueAndType>, vt: ValueAndType)
    ensures ConcatText(text, []) == ""
    ensures ConcatText(text, vts + [vt]) == ConcatText(text, vts) + TextOf(text, vt)
    decreases |vts|
  {
    hide ConcatText, TextOf;
    NoText(text);
    FirstText(text, vts + [vt]);
    if vts == [] {
      assert (vts + [vt])[1..] == [];
    } else {
      TextsJoin(text, vts[1..], vt);
      FirstText(text, vts);
      assert (vts + [vt])[1..] == vts[1..] + [vt];
    }
  }

  lemma NoText(text: ValueAndType -> string)
    ensures ConcatText(text, []) == ""
  {
  }

  /** Item i of a list or a tuple is the i-th value. */
  lemma ItemsInOrder(vs: seq<StackValue>, i: nat)
    requires i < |vs| && AllVals(vs).Some?
    ensures vs[i].Val? && |AllVals(vs).value| == |vs| && AllVals(vs).value[i] == vs[i].vt
    decreases |vs|
  {
    if i > 0 {
      ItemsInOrder(vs[1..], i - 1);
    } else if |vs| > 1 {
      ItemsInOrder(vs[1..], 0);
    }
  }

  lemma {:induction false} AllAreVals(vs: seq<StackValue>)
    ensures AllVals(vs).Some? <==> forall v :: v in vs ==> v.Val?
    decreases |vs|
  {
    if vs != [] {
      AllAreVals(vs[1..]);
      assert forall v :: v in vs <==> v == vs[0] || v in vs[1..];
    }
  }

  lemma ListMade(elem: WitType, vs: seq<StackValue>)
    requires forall v :: v in vs ==> v.Val?
    ensures var x := MakeList(WList(elem), vs);
            && x.Some? && x.value.Val? && x.value.vt.value.VList? && x.value.vt.typ == WList(elem) && |x.value.vt.value.items| == |vs|
            && forall i :: 0 <= i < |vs| ==> x.value.vt.value.items[i] == vs[i].vt.value
  {
    hide AllVals;
    AllValsAre(vs);
  }

  lemma AllValsAre(vs: seq<StackValue>)
    requires hide *; forall v :: v in vs ==> v.Val?
    ensures AllVals(vs).Some? && |AllVals(vs).value| == |vs|
    ensures forall i :: 0 <= i < |vs| ==> AllVals(vs).value[i] == vs[i].vt
  {
    hide AllVals;
    AllAreVals(vs);
    NoVals();
    forall i | 0 <= i < |vs| ensures |AllVals(vs).value| == |vs| && AllVals(vs).value[i] == vs[i].vt {
      ItemsInOrder(vs, i);
    }
    if vs != [] {
      ItemsInOrder(vs, 0);
    }
  }

  lemma NoVals()
    ensures AllVals([]) == Some([])
  {
  }

  lemma {:induction false} TupleMade(t: WitType, vs: seq<StackValue>)
    requires t.WTuple? && forall v :: v in vs ==> v.Val?
    ensures var x := MakeTuple(t, vs);
            && x.Some? && x.value.Val? && x.value.vt.value.VTuple? && |x.value.vt.value.items| == |vs|
            && x.value.vt.typ.WTuple? && |x.value.vt.typ.items| == |vs|
            && forall i :: 0 <= i < |vs| ==> x.value.vt.value.items[i] == vs[i].vt.value && x.value.vt.typ.items[i] == vs[i].vt.typ
  {
    hide AllVals;
    AllValsAre(vs);
  }

  /** A field that is set is what is selected, and the others stay as they were. */
  lemma {:induction false} FieldSet(name: string, other: string, record: StackValue, v: StackValue)
    requires UpdateField(name, record, v).Some?
    ensures v.Val? && SelectFieldOf(name, UpdateField(name, record, v).value).Some?
    ensures var x := SelectFieldOf(name, UpdateField(name, record, v).value).value; x.Val? && x.vt.value == v.vt.value
    ensures other != name ==> SelectFieldOf(other, UpdateField(name, record, v).value) == SelectFieldOf(other, record)
  {
    var items, fields := record.vt.value.items, record.vt.typ.fields;
    var i, j := FieldIndex(fields, name), FieldIndex(fields, other);
    assert i.Some? && i.value < |items| && (other != name && j.Some? ==> j.value != i.value);
  }

  /** Lists are indexed by all whole numbers, tuples by unsigned ones. */
  lemma {:induction false} ItemSelected(items: seq<Value>, t: WitType, k: NumberKind, i: int, at: WitType)
    ensures t.WList? ==>
      SelectItem(Val(VT(VList(items), t)), Val(VT(VNum(k, i as real), at)))
      == if k !in FLOATS && 0 <= i < |items| then Some(Val(VT(items[i], t.elem))) else None
    ensures t.WTuple? ==>
      SelectItem(Val(VT(VTuple(items), t)), Val(VT(VNum(k, i as real), at)))
      == if k in UNSIGNED && 0 <= i < |items| && i < |t.items| then Some(Val(VT(items[i], t.items[i]))) else None
  {
    RangesAre(k, 0);
    assert (i as real).Floor == i;
  }

  // ---------- iteration ----------

  /** A list gives its items, in order, at its element type. */
  lemma ListIterates(items: seq<Value>, elem: WitType)
    ensures var it := Iterated(Val(VT(VList(items), WList(elem))));
            && it.Some? && it.value.Iter? && |it.value.items| == |items|
            && forall i :: 0 <= i < |items| ==> it.value.items[i] == VT(items[i], elem)
  {
  }

  /** A range gives the numbers from its start up to its end, with the end only if it is inclusive. */
  lemma {:induction false} RangeIterates(k: NumberKind, from: int, to: int, inclusive: bool, more: seq<Value>, t: WitType)
    requires k !in FLOATS && t.WRecord?
    ensures var it := Iterated(Val(VT(VRecord([VNum(k, from as real), VNum(k, to as real), VBool(inclusive)] + more), t)));
            var end := if inclusive then to + 1 else to;
            && it.Some? && it.value.Iter? && |it.value.items| == (if from < end then end - from else 0)
            && forall i :: 0 <= i < |it.value.items| ==> it.value.items[i] == VT(VNum(k, (from + i) as real), WNum(k))
  {
    hide Counting;
    RangesAre(k, 0);
    assert (from as real).Floor == from && (to as real).Floor == to;
    Counts(k, from, if inclusive then to + 1 else to);
  }

  lemma {:induction false} Counts(k: NumberKind, from: int, end: int)
    ensures |Counting(k, from, end)| == (if from < end then end - from else 0)
    ensures forall i :: 0 <= i < |Counting(k, from, end)| ==> Counting(k, from, end)[i] == VT(VNum(k, (from + i) as real), WNum(k))
    decreases end - from
  {
    if from < end {
      Counts(k, from + 1, end);
    }
  }
}
