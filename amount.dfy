/**
 * The gateway's amount: a currency code and the value as a decimal string,
 * serialised as `{currency, value}` and read back from a decoded JSON object.
 */
module MollieAmount {
  import opened Wrappers
  import opened Json
  import opened ScalarCoercion
  import opened Decimal

  /** ISO 4217 currency code and the value formatted with the currency's number of decimals. */
  datatype Amount = Amount(currency: string, value: string)

  /** `jsonSerialize`: exactly two members, `currency` then `value`. */
  function JsonSerialize(a: Amount): (w: Wire)
    ensures w.Obj? && Keys(w.fields) == ["currency", "value"]
    ensures RequiredMember(w.fields, "currency", Str(a.currency))
    ensures RequiredMember(w.fields, "value", Str(a.value))
  {
    var d := [("currency", Str(a.currency)), ("value", Str(a.value))];
    assert |"currency"| != |"value"|;
    assert Lookup(d, "value") == Lookup(d[1..], "value");
    assert d[1..] == [("value", Str(a.value))];
    Obj(d)
  }

  /** `remote_serialize`: the hook of the attribute-driven serialiser, delegating to `jsonSerialize`. */
  function RemoteSerialize(a: Amount): Wire
  {
    JsonSerialize(a)
  }

  /**
   * `from_object`: both properties are read and handed to the untyped
   * constructor, which assigns them to `string` properties, `currency` first.
   * The assignment converts an integer or a boolean to its text; null (also
   * what a missing property reads as), an object or a list is a type error.
   */
  function FromObject(d: Doc): (r: Result<Amount, Failure>)
    ensures r.Success? <==>
      StringSlot(Property(d, "currency"), "currency").Success? && StringSlot(Property(d, "value"), "value").Success?
    ensures r.Success? ==>
      StringSlot(Property(d, "currency"), "currency") == Success(r.value.currency) &&
      StringSlot(Property(d, "value"), "value") == Success(r.value.value)
    ensures StringSlot(Property(d, "currency"), "currency").Failure? ==> r == Failure(TypeError("currency"))
  {
    var currency := StringSlot(Property(d, "currency"), "currency");
    var value := StringSlot(Property(d, "value"), "value");
    if currency.Failure? then Failure(currency.error)
    else if value.Failure? then Failure(value.error)
    else Success(Amount(currency.value, value.value))
  }

  /** `from_json`: a value that is not an object is refused before anything is read. */
  function FromJson(json: Wire): (r: Result<Amount, Failure>)
    ensures !json.Obj? ==> r == Failure(InvalidArgument(NotAnObject))
    ensures json.Obj? ==> r == FromObject(json.fields)
  {
    match RequireObject(json)
    case Failure(e) => Failure(e)
    case Success(d) => FromObject(d)
  }

  /**
   * `Amount::from_object` called on an arbitrary decoded value: its parameter
   * is typed `object`, so anything else (null included) is a type error.
   */
  function FromValue(w: Wire): (r: Result<Amount, Failure>)
    ensures !w.Obj? ==> r == Failure(TypeError("value"))
    ensures w.Obj? ==> r == FromObject(w.fields)
  {
    if w.Obj? then FromObject(w.fields) else Failure(TypeError("value"))
  }

  /** A nullable amount on the wire: null, or the amount's serialisation. */
  function OptJson(o: Option<Amount>): (w: Wire)
    ensures w == Null <==> o.None?
    ensures o.Some? ==> w == JsonSerialize(o.value)
  {
    match o
    case None => Null
    case Some(a) => JsonSerialize(a)
  }

  // ---------------------------------------------------------------- lemmas

  /** Reading back what `jsonSerialize` wrote gives the same amount. */
  lemma FromJsonRoundTrip(a: Amount)
    ensures FromObject(JsonSerialize(a).fields) == Success(a)
    ensures FromJson(JsonSerialize(a)) == Success(a)
  {
    var d := JsonSerialize(a).fields;
    assert Lookup(d, "currency") == Some(Str(a.currency));
    assert Lookup(d, "value") == Some(Str(a.value));
  }

  /** The same round trip through `from_object` on a value, as nested objects are read back. */
  lemma FromValueRoundTrip(a: Amount)
    ensures FromValue(JsonSerialize(a)) == Success(a)
  {
    FromJsonRoundTrip(a);
  }

  /** Example: 100.00 EUR is written `{"currency":"EUR","value":"100.00"}`. */
  lemma JsonSerializeExample()
    ensures JsonSerialize(Amount("EUR", "100.00")) == Obj([("currency", Str("EUR")), ("value", Str("100.00"))])
  {
  }

  /** An integer value is stored as its text: `{"currency":"EUR","value":10}` reads as 10 EUR. */
  lemma FromObjectCoercionExample()
    ensures FromObject([("currency", Str("EUR")), ("value", Int(10))]) == Success(Amount("EUR", "10"))
  {
    var d := [("currency", Str("EUR")), ("value", Int(10))];
    assert Property(d, "currency") == Str("EUR");
    assert |"currency"| != |"value"|;
    assert Property(d, "value") == Int(10);
    assert Digits(1, 0) == "1";
    assert IntText(10) == Digits(1, 0) + [DigitChar(0)] == "10";
  }
}
