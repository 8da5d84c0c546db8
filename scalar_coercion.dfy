/**
 * PHP's coercive typing mode on the scalars a decoded JSON document holds:
 * what a typed `string`, `?string` or `int` parameter or property makes of
 * the value handed to it. None of the library's files declares strict types,
 * so every typed slot the readers fill converts rather than rejects a scalar
 * of another kind.
 */
module ScalarCoercion {
  import opened Wrappers
  import opened Json
  import opened Decimal

  /** The decimal text of an integer, as PHP converts an int to a string. */
  function IntText(i: int): string
  {
    if i < 0 then "-" + Digits(-i, 0) else Digits(i, 0)
  }

  /** An integer string: an optional sign and one or more decimal digits, read as its value. */
  function ParseInt(s: string): Option<int>
  {
    if |s| > 1 && (s[0] == '-' || s[0] == '+') && AllDigits(s[1..]) then
      Some(if s[0] == '-' then -(Value(s[1..]) as int) else Value(s[1..]))
    else if |s| > 0 && AllDigits(s) then Some(Value(s))
    else None
  }

  /**
   * A value handed to a `string` slot: a string is kept, an integer becomes
   * its decimal text, a boolean "1" or ""; null, an object or a list is a
   * type error naming the slot.
   */
  function StringSlot(w: Wire, name: string): (r: Result<string, Failure>)
    ensures r.Success? <==> w.Str? || w.Int? || w.Bool?
    ensures r.Failure? ==> r.error == TypeError(name)
    ensures w.Str? ==> r == Success(w.s)
    ensures w.Int? ==> r.Success? && ParseInt(r.value) == Some(w.i)
    ensures w.Bool? ==> r == Success(if w.b then "1" else "")
  {
    match w
    case Str(s) => Success(s)
    case Int(i) => IntTextRoundTrip(i); Success(IntText(i))
    case Bool(b) => Success(if b then "1" else "")
    case _ => Failure(TypeError(name))
  }

  /** A value handed to a `?string` slot: null stays null, anything else is a `string` slot's conversion. */
  function NullableStringSlot(w: Wire, name: string): (r: Result<Option<string>, Failure>)
    ensures r.Success? <==> w.Null? || StringSlot(w, name).Success?
    ensures r.Failure? ==> r.error == TypeError(name)
    ensures w.Null? ==> r == Success(None)
    ensures !w.Null? && r.Success? ==> r.value.Some? && StringSlot(w, name) == Success(r.value.value)
    ensures r.Success? ==> OptStr(r.value) == w || !w.Str?
  {
    if w.Null? then Success(None)
    else match StringSlot(w, name)
      case Success(s) => Success(Some(s))
      case Failure(e) => Failure(e)
  }

  /**
   * A value handed to an `int` slot: an integer is kept, a boolean becomes 1
   * or 0, an integer string its value; anything else is a type error naming
   * the slot.
   */
  function IntSlot(w: Wire, name: string): (r: Result<int, Failure>)
    ensures r.Success? <==> w.Int? || w.Bool? || (w.Str? && ParseInt(w.s).Some?)
    ensures r.Failure? ==> r.error == TypeError(name)
    ensures w.Int? ==> r == Success(w.i)
    ensures w.Str? && r.Success? ==> Some(r.value) == ParseInt(w.s)
    ensures w.Bool? ==> r == Success(if w.b then 1 else 0)
  {
    match w
    case Int(i) => Success(i)
    case Bool(b) => Success(if b then 1 else 0)
    case Str(s) => if ParseInt(s).Some? then Success(ParseInt(s).value) else Failure(TypeError(name))
    case _ => Failure(TypeError(name))
  }

  // ---------------------------------------------------------------- lemmas

  /** The decimal text of an integer reads back as that integer, so distinct integers have distinct texts. */
  lemma IntTextRoundTrip(i: int)
    ensures ParseInt(IntText(i)) == Some(i)
  {
    var n: nat := if i < 0 then -i else i;
    var t := Digits(n, 0);
    DigitsValue(n, 0);
    assert |t| > 0;
    if i < 0 {
      var s := IntText(i);
      assert s == "-" + t;
      assert s[1..] == t;
    } else {
      assert IsDigit(t[0]);
    }
  }

  /** An integer handed to a `string` slot and then to an `int` slot comes back unchanged. */
  lemma IntThroughString(i: int, name: string, name': string)
    ensures StringSlot(Int(i), name) == Success(IntText(i))
    ensures IntSlot(Str(IntText(i)), name') == Success(i)
  {
    IntTextRoundTrip(i);
  }

  /** Examples: 7 into a string slot is "7", 0 is "0", -15 is "-15"; "2" and "+2" into an int slot are 2. */
  lemma CoercionExamples()
    ensures StringSlot(Int(7), "id") == Success("7")
    ensures IntText(0) == "0"
    ensures IntText(-15) == "-15"
    ensures IntSlot(Str("2"), "quantity") == Success(2)
    ensures IntSlot(Str("+2"), "quantity") == Success(2)
    ensures StringSlot(Bool(true), "description") == Success("1")
  {
    assert Digits(15, 0) == Digits(1, 0) + [DigitChar(5)];
    assert AllDigits("2") && Value("2") == 10 * Value("") + 2;
    assert "+2"[1..] == "2";
  }
}
