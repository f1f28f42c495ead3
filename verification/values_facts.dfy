/**
 * Properties of the value operations: equality is an equivalence the `==`
 * operator never fails on, the comparisons demand numbers, subscripts accept
 * exactly the indices from `-len` to `len - 1`, and the integer conversion
 * reads back the decimal text of every integer.
 */
module ValuesFacts {
  import opened Wrappers
  import opened Lexing
  import opened Values

  // Equality.

  lemma {:induction false} EqualReflexive(a: Value)
    ensures Equal(a, a)
    decreases a
  {
    if a.ListValue? {
      forall k | 0 <= k < |a.items| ensures Equal(a.items[k], a.items[k]) {
        EqualReflexive(a.items[k]);
      }
    }
  }

  lemma {:induction false} EqualSymmetric(a: Value, b: Value)
    ensures Equal(a, b) == Equal(b, a)
    decreases a
  {
    if a.ListValue? && b.ListValue? && |a.items| == |b.items| {
      forall k | 0 <= k < |a.items| ensures Equal(a.items[k], b.items[k]) == Equal(b.items[k], a.items[k]) {
        EqualSymmetric(a.items[k], b.items[k]);
      }
    }
  }

  /** `==` never fails, and every value equals itself. */
  lemma {:induction false} EqualityNeverFails(left: Value, right: Value)
    ensures Apply(EQ, left, right) == Ok(BoolValue(Equal(left, right)))
    ensures Apply(EQ, left, left) == Ok(BoolValue(true))
    ensures Apply(EQ, left, right) == Apply(EQ, right, left)
  {
    EqualReflexive(left);
    EqualSymmetric(left, right);
  }

  /**
   * A boolean behaves as the integer it stands for under every operator and
   * on either side: `True + 2 == 3`, `True == 1`, `False * [1]` is a list
   * repetition.
   */
  lemma {:induction false} BooleansAreNumbers(op: TokenKind, b: bool, v: Value)
    ensures Apply(op, BoolValue(b), v) == Apply(op, IntValue(if b then 1 else 0), v)
    ensures Apply(op, v, BoolValue(b)) == Apply(op, v, IntValue(if b then 1 else 0))
  {
    if op == EQ {
      BooleanEqualsItsNumber(b, v);
    } else {
      BooleanLeftOperand(op, b, v);
      BooleanRightOperand(op, b, v);
    }
  }

  lemma BooleanEqualsItsNumber(b: bool, v: Value)
    ensures Equal(BoolValue(b), v) == Equal(IntValue(if b then 1 else 0), v)
    ensures Equal(v, BoolValue(b)) == Equal(v, IntValue(if b then 1 else 0))
  {}

  lemma BooleanLeftOperand(op: TokenKind, b: bool, v: Value)
    requires op != EQ
    ensures Apply(op, BoolValue(b), v) == Apply(op, IntValue(if b then 1 else 0), v)
  {}

  lemma BooleanRightOperand(op: TokenKind, b: bool, v: Value)
    requires op != EQ
    ensures Apply(op, v, BoolValue(b)) == Apply(op, v, IntValue(if b then 1 else 0))
  {}

  // Comparisons.

  /** `>` and `<` succeed exactly on two numbers (booleans included) and are type errors otherwise. */
  lemma {:induction false} ComparisonsNeedNumbers(op: TokenKind, left: Value, right: Value)
    requires op == GT || op == LT
    ensures Apply(op, left, right).Ok? <==> Numeric(left) && Numeric(right)
    ensures !(Numeric(left) && Numeric(right)) ==> Apply(op, left, right) == Err(TypeError)
    ensures Apply(op, left, right).Ok? ==> Apply(op, left, right).value.BoolValue?
  {
  }

  /** `a > b` is `b < a`, type errors included. */
  lemma {:induction false} GreaterIsLessSwapped(left: Value, right: Value)
    ensures Apply(GT, left, right) == Apply(LT, right, left)
  {
  }

  // Subscripts.

  /**
   * Subscripting a list succeeds exactly for a number from `-len` to
   * `len - 1`; a non-number index or a non-list target is a type error.
   */
  lemma {:induction false} SubscriptValidRange(target: Value, index: Value)
    ensures !target.ListValue? ==> Subscript(target, index) == Err(TypeError)
    ensures target.ListValue? && !Numeric(index) ==> Subscript(target, index) == Err(TypeError)
    ensures target.ListValue? && Numeric(index) ==>
      (Subscript(target, index).Ok? <==> -|target.items| <= NumberOf(index) < |target.items|) &&
      (Subscript(target, index).Err? ==> Subscript(target, index) == Err(IndexError))
  {
  }

  /** A negative index counts from the end: `xs[i - len]` is `xs[i]`. */
  lemma {:induction false} NegativeIndexCountsFromEnd(items: seq<Value>, i: int)
    requires 0 <= i < |items|
    ensures Subscript(ListValue(items), IntValue(i - |items|)) == Subscript(ListValue(items), IntValue(i)) == Ok(items[i])
  {
  }

  // The integer conversion.

  lemma {:induction false} DigitsValueAppend(s: string, c: char)
    requires AllDigits(s) && IsDigit(c)
    ensures AllDigits(s + [c]) && DigitsValue(s + [c]) == 10 * DigitsValue(s) + (c as int - '0' as int)
  {
    assert (s + [c])[..|s|] == s;
  }

  lemma {:induction false} DigitsOfValue(n: nat)
    ensures DigitsValue(DigitsOf(n)) == n
  {
    if n >= 10 {
      DigitsOfValue(n / 10);
      DigitsValueAppend(DigitsOf(n / 10), '0' + (n % 10) as char);
    }
  }

  /** Reading back the decimal text of an integer gives the integer. */
  lemma {:induction false} IntOfDecimal(n: int)
    ensures IntOf(Decimal(n)) == Some(n)
  {
    if n < 0 {
      DigitsOfValue(-n);
      assert Decimal(n)[1..] == DigitsOf(-n);
    } else {
      DigitsOfValue(n);
    }
  }

  /**
   * The conversion accepts only an optional sign followed by digits: no
   * digits at all, or any other character anywhere but a leading sign, is
   * refused.
   */
  lemma {:induction false} IntOfNeedsDigits(text: string)
    ensures text == [] || text == "-" || text == "+" ==> IntOf(text) == None
    ensures (exists k :: 0 <= k < |text| && !IsDigit(text[k]) && (k > 0 || (text[0] != '-' && text[0] != '+'))) ==> IntOf(text) == None
  {
    if exists k :: 0 <= k < |text| && !IsDigit(text[k]) && (k > 0 || (text[0] != '-' && text[0] != '+')) {
      var k :| 0 <= k < |text| && !IsDigit(text[k]) && (k > 0 || (text[0] != '-' && text[0] != '+'));
      if text[0] == '-' || text[0] == '+' {
        assert text[1..][k - 1] == text[k];
      }
    }
  }

  /** `take` stores the integer a line spells, and the line itself when it spells none. */
  lemma {:induction false} InputValueReadsIntegers(n: int, line: string)
    ensures InputValue(Decimal(n)) == IntValue(n)
    ensures IntOf(line).None? ==> InputValue(line) == StrValue(line)
  {
    IntOfDecimal(n);
  }
}
