/**
 * The run-time values of the interpreter and the operations on them that do
 * not touch the interpreter's tables: truthiness, equality, the binary
 * operators, list subscripts and the integer conversion `take` and number
 * literals rely on.
 */
module Values {
  import opened Wrappers
  import opened Lexing

  /**
   * What an expression evaluates to. Booleans come from comparisons and take
   * part in arithmetic as 0 and 1; `NoneValue` is what a call without a
   * `return` yields.
   */
  datatype Value =
    | IntValue(i: int)
    | BoolValue(b: bool)
    | StrValue(s: string)
    | ListValue(items: seq<Value>)
    | NoneValue

  /** The ways evaluation can fail, by the kind of exception each one is. */
  datatype Error =
    | UnboundVariable(name: string) // KeyError on the variable table
    | UndefinedFunction             // ValueError: no such function
    | TypeError                     // operands, subscripts or a function key of the wrong type
    | IndexError                    // list subscript out of range
    | InvalidLiteral                // ValueError from `int` on a number literal
    | UnknownOperator               // ValueError: a binary node whose token is no operator
    | ZeroDivision                  // ZeroDivisionError
    | EndOfInput                    // EOFError from reading a line
    | Unsupported                   // a float quotient, or a string or list repetition
    | OutOfFuel                     // the bound on calls and loop iterations ran out

  /** Integers and booleans are numbers (a boolean is an integer in the host language). */
  predicate Numeric(v: Value) {
    v.IntValue? || v.BoolValue?
  }

  function NumberOf(v: Value): int
    requires Numeric(v)
  {
    if v.IntValue? then v.i else if v.b then 1 else 0
  }

  /** Zero, false, the empty string, the empty list and none are false; everything else is true. */
  predicate Truthy(v: Value) {
    match v
    case IntValue(i) => i != 0
    case BoolValue(b) => b
    case StrValue(s) => s != []
    case ListValue(items) => items != []
    case NoneValue => false
  }

  /** The host language's `==`: numbers by value, strings and lists by contents, none only to none. */
  predicate Equal(a: Value, b: Value)
    decreases a
  {
    if Numeric(a) && Numeric(b) then NumberOf(a) == NumberOf(b)
    else if a.StrValue? && b.StrValue? then a.s == b.s
    else if a.ListValue? && b.ListValue? then
      |a.items| == |b.items| && forall k :: 0 <= k < |a.items| ==> Equal(a.items[k], b.items[k])
    else a.NoneValue? && b.NoneValue?
  }

  /** A string or list on the left of `*` with a number on the right would repeat it. */
  predicate Repeats(sequence: Value, count: Value) {
    (sequence.StrValue? || sequence.ListValue?) && Numeric(count)
  }

  /** `apply_binary_operator`: the operator is chosen by its token kind. */
  function Apply(op: TokenKind, left: Value, right: Value): Result<Value, Error> {
    match op
    case PLUS =>
      if Numeric(left) && Numeric(right) then Ok(IntValue(NumberOf(left) + NumberOf(right)))
      else if left.StrValue? && right.StrValue? then Ok(StrValue(left.s + right.s))
      else if left.ListValue? && right.ListValue? then Ok(ListValue(left.items + right.items))
      else Err(TypeError)
    case MINUS =>
      if Numeric(left) && Numeric(right) then Ok(IntValue(NumberOf(left) - NumberOf(right)))
      else Err(TypeError)
    case MULTIPLY =>
      if Numeric(left) && Numeric(right) then Ok(IntValue(NumberOf(left) * NumberOf(right)))
      else if Repeats(left, right) || Repeats(right, left) then Err(Unsupported)
      else Err(TypeError)
    case DIVIDE =>
      if Numeric(left) && Numeric(right) then
        if NumberOf(right) == 0 then Err(ZeroDivision) else Err(Unsupported)
      else Err(TypeError)
    case GT =>
      if Numeric(left) && Numeric(right) then Ok(BoolValue(NumberOf(left) > NumberOf(right)))
      else Err(TypeError)
    case LT =>
      if Numeric(left) && Numeric(right) then Ok(BoolValue(NumberOf(left) < NumberOf(right)))
      else Err(TypeError)
    case EQ => Ok(BoolValue(Equal(left, right)))
    case _ => Err(UnknownOperator)
  }

  /** `array[index]` once the target is known to be a list: negative indices count from the end. */
  function Subscript(target: Value, index: Value): Result<Value, Error> {
    if !target.ListValue? then Err(TypeError)
    else if !Numeric(index) then Err(TypeError)
    else
      var n := |target.items|;
      var i := NumberOf(index);
      if -n <= i < n then Ok(target.items[if i < 0 then i + n else i]) else Err(IndexError)
  }

  // The integer conversion, restricted to an optional sign and ASCII digits.

  predicate AllDigits(s: string) {
    forall k :: 0 <= k < |s| ==> IsDigit(s[k])
  }

  function DigitsValue(s: string): nat
    requires AllDigits(s)
  {
    if s == [] then 0 else 10 * DigitsValue(s[..|s| - 1]) + (s[|s| - 1] as int - '0' as int)
  }

  /** `int(text)`: an optional `+` or `-` and one or more digits, or nothing. */
  function IntOf(text: string): Option<int> {
    if text != [] && (text[0] == '-' || text[0] == '+') then
      var digits := text[1..];
      if digits != [] && AllDigits(digits) then
        var magnitude: int := DigitsValue(digits);
        Some(if text[0] == '-' then -magnitude else magnitude)
      else None
    else if text != [] && AllDigits(text) then Some(DigitsValue(text))
    else None
  }

  /** The decimal digits of a natural number, most significant first, without leading zeros. */
  function DigitsOf(n: nat): (s: string)
    ensures s != [] && AllDigits(s)
  {
    if n < 10 then ['0' + n as char] else DigitsOf(n / 10) + ['0' + (n % 10) as char]
  }

  /** The decimal text of an integer, with a `-` when negative. */
  function Decimal(n: int): string {
    if n < 0 then "-" + DigitsOf(-n) else DigitsOf(n)
  }

  /** What `take` stores for a line read: the integer it spells, or the line itself. */
  function InputValue(line: string): (v: Value)
    ensures v.IntValue? <==> IntOf(line).Some?
  {
    match IntOf(line)
    case Some(n) => IntValue(n)
    case None => StrValue(line)
  }
}
