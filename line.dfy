/**
 * An order line: four always-present members, eight optional ones, and the
 * rule that a zero VAT rate or VAT amount is left out of the document.
 */
module MollieLine {
  import opened Wrappers
  import opened Json
  import opened MollieObjectBuilder
  import opened MollieAmount
  import opened ScalarCoercion

  /** A decimal number of the number library the line uses for its VAT rate, by its textual form. */
  datatype Number = Number(text: string)

  /**
   * The parts of the number and money libraries the line calls into, taken
   * as given: whether a number is zero, a number with two decimals and `.` as
   * separator, `Number::from_string` on a decoded value, and whether an
   * amount converted to the money library is zero.
   */
  datatype Collaborators = Collaborators(
    numberIsZero: Number -> bool,
    numberFormat2: Number -> string,
    numberFromString: Wire -> Result<Number, Failure>,
    amountIsZero: Amount -> bool)

  /** The fields of a line, as a value. */
  datatype LineState = LineState(
    id: Option<string>,
    kind: Option<string>,
    description: string,
    quantity: int,
    unitPrice: Amount,
    discountAmount: Option<Amount>,
    totalAmount: Amount,
    vatRate: Option<Number>,
    vatAmount: Option<Amount>,
    sku: Option<string>,
    imageUrl: Option<string>,
    productUrl: Option<string>)

  /** The wire keys in the order the serialisation visits them. */
  const LineKeys: seq<string> := [
    "description", "quantity", "unitPrice", "totalAmount", "id", "type",
    "discountAmount", "vatRate", "vatAmount", "sku", "imageUrl", "productUrl"]

  /** The value offered for `vatRate`: null for a missing or zero rate, else the rate with two decimals. */
  function VatRateWire(rate: Option<Number>, env: Collaborators): Wire
  {
    if rate.None? || env.numberIsZero(rate.value) then Null else Str(env.numberFormat2(rate.value))
  }

  /** The value offered for `vatAmount`: null for a missing or zero amount, else the amount's serialisation. */
  function VatAmountWire(amount: Option<Amount>, env: Collaborators): Wire
  {
    if amount.None? || env.amountIsZero(amount.value) then Null else MollieAmount.JsonSerialize(amount.value)
  }

  /** The four `set_required` calls. */
  function LineRequiredCalls(st: LineState): Calls
  {
    Start
      .SetRequired("description", Str(st.description))
      .SetRequired("quantity", Int(st.quantity))
      .SetRequired("unitPrice", MollieAmount.JsonSerialize(st.unitPrice))
      .SetRequired("totalAmount", MollieAmount.JsonSerialize(st.totalAmount))
  }

  /** The log of `jsonSerialize`: the four required calls, then the eight optional ones. */
  function LineCalls(st: LineState, env: Collaborators): Calls
  {
    LineRequiredCalls(st)
      .SetOptional("id", OptStr(st.id))
      .SetOptional("type", OptStr(st.kind))
      .SetOptional("discountAmount", OptJson(st.discountAmount))
      .SetOptional("vatRate", VatRateWire(st.vatRate, env))
      .SetOptional("vatAmount", VatAmountWire(st.vatAmount, env))
      .SetOptional("sku", OptStr(st.sku))
      .SetOptional("imageUrl", OptStr(st.imageUrl))
      .SetOptional("productUrl", OptStr(st.productUrl))
  }

  /** The members `jsonSerialize` produces. */
  function LineDocument(st: LineState, env: Collaborators): Doc
  {
    Replay(LineCalls(st, env))
  }

  /** The four readers of the constructor's arguments all succeed. */
  predicate ConstructorReads(d: Doc)
  {
    FromValue(Property(d, "unitPrice")).Success? && FromValue(Property(d, "totalAmount")).Success? &&
    StringSlot(Property(d, "description"), "description").Success? &&
    IntSlot(Property(d, "quantity"), "quantity").Success?
  }

  /**
   * `Line::from_object`: the constructor's arguments are evaluated first (the
   * two nested amounts), then its typed parameters `string $description` and
   * `int $quantity` convert what they are given, then the `?string`
   * properties `id` and `sku` are assigned, then `vatRate` and `vatAmount`,
   * in that order. The first failure is the result.
   */
  function LineFromObject(d: Doc, env: Collaborators): (r: Result<LineState, Failure>)
    ensures r.Success? ==> StringSlot(Property(d, "description"), "description") == Success(r.value.description)
    ensures r.Success? ==> IntSlot(Property(d, "quantity"), "quantity") == Success(r.value.quantity)
    ensures r.Success? ==> FromValue(Property(d, "unitPrice")) == Success(r.value.unitPrice)
    ensures r.Success? ==> FromValue(Property(d, "totalAmount")) == Success(r.value.totalAmount)
    ensures r.Success? ==> NullableStringSlot(Property(d, "id"), "id") == Success(r.value.id)
    ensures r.Success? ==> NullableStringSlot(Property(d, "sku"), "sku") == Success(r.value.sku)
    ensures r.Success? ==> r.value.vatRate.Some? && env.numberFromString(Property(d, "vatRate")) == Success(r.value.vatRate.value)
    ensures r.Success? ==> r.value.vatAmount.Some? && FromValue(Property(d, "vatAmount")) == Success(r.value.vatAmount.value)
    ensures r.Success? ==> r.value.kind.None? && r.value.discountAmount.None? && r.value.imageUrl.None? && r.value.productUrl.None?
    ensures r.Success? <==>
      FromValue(Property(d, "unitPrice")).Success? && FromValue(Property(d, "totalAmount")).Success? &&
      StringSlot(Property(d, "description"), "description").Success? &&
      IntSlot(Property(d, "quantity"), "quantity").Success? &&
      NullableStringSlot(Property(d, "id"), "id").Success? && NullableStringSlot(Property(d, "sku"), "sku").Success? &&
      env.numberFromString(Property(d, "vatRate")).Success? && FromValue(Property(d, "vatAmount")).Success?
    ensures FromValue(Property(d, "unitPrice")).Failure? ==> r == Failure(FromValue(Property(d, "unitPrice")).error)
    ensures FromValue(Property(d, "unitPrice")).Success? && FromValue(Property(d, "totalAmount")).Failure? ==>
              r == Failure(FromValue(Property(d, "totalAmount")).error)
    ensures FromValue(Property(d, "unitPrice")).Success? && FromValue(Property(d, "totalAmount")).Success? &&
            StringSlot(Property(d, "description"), "description").Failure? ==>
              r == Failure(TypeError("description"))
    ensures FromValue(Property(d, "unitPrice")).Success? && FromValue(Property(d, "totalAmount")).Success? &&
            StringSlot(Property(d, "description"), "description").Success? &&
            IntSlot(Property(d, "quantity"), "quantity").Failure? ==>
              r == Failure(TypeError("quantity"))
    ensures ConstructorReads(d) && NullableStringSlot(Property(d, "id"), "id").Failure? ==>
              r == Failure(TypeError("id"))
    ensures ConstructorReads(d) && NullableStringSlot(Property(d, "id"), "id").Success? &&
            NullableStringSlot(Property(d, "sku"), "sku").Failure? ==>
              r == Failure(TypeError("sku"))
    ensures ConstructorReads(d) && NullableStringSlot(Property(d, "id"), "id").Success? &&
            NullableStringSlot(Property(d, "sku"), "sku").Success? &&
            env.numberFromString(Property(d, "vatRate")).Failure? ==>
              r == Failure(env.numberFromString(Property(d, "vatRate")).error)
    ensures ConstructorReads(d) && NullableStringSlot(Property(d, "id"), "id").Success? &&
            NullableStringSlot(Property(d, "sku"), "sku").Success? &&
            env.numberFromString(Property(d, "vatRate")).Success? &&
            FromValue(Property(d, "vatAmount")).Failure? ==>
              r == Failure(FromValue(Property(d, "vatAmount")).error)
  {
    var unitPrice := FromValue(Property(d, "unitPrice"));
    var totalAmount := FromValue(Property(d, "totalAmount"));
    var description := StringSlot(Property(d, "description"), "description");
    var quantity := IntSlot(Property(d, "quantity"), "quantity");
    if unitPrice.Failure? then Failure(unitPrice.error)
    else if totalAmount.Failure? then Failure(totalAmount.error)
    else if description.Failure? then Failure(description.error)
    else if quantity.Failure? then Failure(quantity.error)
    else
      var id := NullableStringSlot(Property(d, "id"), "id");
      var sku := NullableStringSlot(Property(d, "sku"), "sku");
      var rate := env.numberFromString(Property(d, "vatRate"));
      var vatAmount := FromValue(Property(d, "vatAmount"));
      if id.Failure? then Failure(id.error)
      else if sku.Failure? then Failure(sku.error)
      else if rate.Failure? then Failure(rate.error)
      else if vatAmount.Failure? then Failure(vatAmount.error)
      else Success(LineState(id.value, None, description.value, quantity.value, unitPrice.value, None,
                             totalAmount.value, Some(rate.value), Some(vatAmount.value), sku.value, None, None))
  }

  /** `Line::from_json`: a value that is not an object is refused before anything is read. */
  function LineFromJson(json: Wire, env: Collaborators): (r: Result<LineState, Failure>)
    ensures !json.Obj? ==> r == Failure(InvalidArgument(NotAnObject))
    ensures json.Obj? ==> r == LineFromObject(json.fields, env)
    ensures r.Success? ==> r.value.kind.None? && r.value.discountAmount.None? && r.value.imageUrl.None? && r.value.productUrl.None?
  {
    match RequireObject(json)
    case Failure(e) => Failure(e)
    case Success(d) => LineFromObject(d, env)
  }

  class Line {
    var id: Option<string>
    var kind: Option<string>
    var description: string
    var quantity: int
    var unitPrice: Amount
    var discountAmount: Option<Amount>
    var totalAmount: Amount
    var vatRate: Option<Number>
    var vatAmount: Option<Amount>
    var sku: Option<string>
    var imageUrl: Option<string>
    var productUrl: Option<string>

    function State(): LineState
      reads this
    {
      LineState(id, kind, description, quantity, unitPrice, discountAmount, totalAmount,
                vatRate, vatAmount, sku, imageUrl, productUrl)
    }

    /** `new Line(...)`: the four arguments are stored and every nullable field is null. */
    constructor (description: string, quantity: int, unitPrice: Amount, totalAmount: Amount)
      ensures State() == LineState(None, None, description, quantity, unitPrice, None, totalAmount,
                                   None, None, None, None, None)
      ensures GetId() == None
    {
      this.id := None;
      this.kind := None;
      this.description := description;
      this.quantity := quantity;
      this.unitPrice := unitPrice;
      this.discountAmount := None;
      this.totalAmount := totalAmount;
      this.vatRate := None;
      this.vatAmount := None;
      this.sku := None;
      this.imageUrl := None;
      this.productUrl := None;
    }

    /** `get_id`. */
    function GetId(): Option<string>
      reads this
    {
      id
    }

    /**
     * The object `from_object` builds once every property has been read: the
     * constructor's four arguments, then the four assignments.
     */
    static method Assemble(st: LineState) returns (line: Line)
      requires st.kind.None? && st.discountAmount.None? && st.imageUrl.None? && st.productUrl.None?
      ensures fresh(line) && line.State() == st
    {
      line := new Line(st.description, st.quantity, st.unitPrice, st.totalAmount);
      line.id := st.id;
      line.sku := st.sku;
      line.vatRate := st.vatRate;
      line.vatAmount := st.vatAmount;
    }

    /** `Line::from_json`: a new line holding what LineFromJson reads, or its failure. */
    static method FromJson(json: Wire, env: Collaborators) returns (r: Result<Line, Failure>)
      ensures r.Failure? <==> LineFromJson(json, env).Failure?
      ensures r.Failure? ==> r.error == LineFromJson(json, env).error
      ensures r.Success? ==> fresh(r.value) && r.value.State() == LineFromJson(json, env).value
    {
      var read := LineFromJson(json, env);
      if read.Failure? {
        return Failure(read.error);
      }
      var line := Assemble(read.value);
      return Success(line);
    }

    /** `jsonSerialize`: drives a fresh builder through the calls of LineCalls; the line is not changed. */
    method JsonSerialize(env: Collaborators) returns (doc: Wire)
      ensures doc == Obj(LineDocument(State(), env))
    {
      var st := State();
      var b := new ObjectBuilder();
      b.SetRequired("description", Str(st.description));
      b.SetRequired("quantity", Int(st.quantity));
      b.SetRequired("unitPrice", MollieAmount.JsonSerialize(st.unitPrice));
      b.SetRequired("totalAmount", MollieAmount.JsonSerialize(st.totalAmount));
      b.SetOptional("id", OptStr(st.id));
      b.SetOptional("type", OptStr(st.kind));
      b.SetOptional("discountAmount", OptJson(st.discountAmount));
      b.SetOptional("vatRate", if st.vatRate.None? || env.numberIsZero(st.vatRate.value) then Null
                               else Str(env.numberFormat2(st.vatRate.value)));
      b.SetOptional("vatAmount", if st.vatAmount.None? || env.amountIsZero(st.vatAmount.value) then Null
                                 else MollieAmount.JsonSerialize(st.vatAmount.value));
      b.SetOptional("sku", OptStr(st.sku));
      b.SetOptional("imageUrl", OptStr(st.imageUrl));
      b.SetOptional("productUrl", OptStr(st.productUrl));
      doc := b.JsonSerialize();
    }
  }

  // ---------------------------------------------------------------- lemmas

  /** No wire key of a line is used twice. */
  lemma LineKeysDistinct()
    ensures NoDuplicates(LineKeys)
  {
  }

  /** The four required calls as a sequence. */
  lemma LineRequiredSetters(st: LineState)
    ensures LineRequiredCalls(st).Setters() == [
      Setter(Required, "description", Str(st.description)),
      Setter(Required, "quantity", Int(st.quantity)),
      Setter(Required, "unitPrice", MollieAmount.JsonSerialize(st.unitPrice)),
      Setter(Required, "totalAmount", MollieAmount.JsonSerialize(st.totalAmount)) ]
  {
    SettersSnoc();
  }

  /** The calls as a sequence: the four required pairs first, then the eight optional calls; and their keys. */
  lemma LineSetters(st: LineState, env: Collaborators)
    ensures |LineCalls(st, env).Setters()| == 12
    ensures LineCalls(st, env).Setters() == LineRequiredCalls(st).Setters() + [
      Setter(Optional, "id", OptStr(st.id)),
      Setter(Optional, "type", OptStr(st.kind)),
      Setter(Optional, "discountAmount", OptJson(st.discountAmount)),
      Setter(Optional, "vatRate", VatRateWire(st.vatRate, env)),
      Setter(Optional, "vatAmount", VatAmountWire(st.vatAmount, env)),
      Setter(Optional, "sku", OptStr(st.sku)),
      Setter(Optional, "imageUrl", OptStr(st.imageUrl)),
      Setter(Optional, "productUrl", OptStr(st.productUrl)) ]
  {
    LineRequiredSetters(st);
    SettersSnoc();
  }

  /** The keys of the calls, in call order, are LineKeys. */
  lemma LineSetterKeys(st: LineState, env: Collaborators)
    ensures SetterKeys(LineCalls(st, env).Setters()) == LineKeys
  {
    LineRequiredSetters(st);
    LineSetters(st, env);
  }

  /** The document is the emitted pairs of the calls, and its keys are unique. */
  lemma LineDocumentIsEmitted(st: LineState, env: Collaborators)
    ensures LineDocument(st, env) == Emitted(LineCalls(st, env).Setters())
    ensures NoDuplicates(Keys(LineDocument(st, env)))
  {
    LineSetters(st, env);
    LineSetterKeys(st, env);
    LineKeysDistinct();
    ReplayIsRun(LineCalls(st, env));
    RunIsEmitted(LineCalls(st, env).Setters());
  }

  /** The four required calls all store their pair. */
  lemma LineRequiredEmitted(st: LineState)
    ensures Emitted(LineRequiredCalls(st).Setters()) == [
      ("description", Str(st.description)),
      ("quantity", Int(st.quantity)),
      ("unitPrice", MollieAmount.JsonSerialize(st.unitPrice)),
      ("totalAmount", MollieAmount.JsonSerialize(st.totalAmount)) ]
  {
    var req := LineRequiredCalls(st).Setters();
    LineRequiredSetters(st);
    var s0, s1, s2, s3 := req[0], req[1], req[2], req[3];
    EmittedSnoc([], s0);
    assert [] + [s0] == [s0];
    EmittedSnoc([s0], s1);
    assert [s0] + [s1] == [s0, s1];
    EmittedSnoc([s0, s1], s2);
    assert [s0, s1] + [s2] == [s0, s1, s2];
    EmittedSnoc([s0, s1, s2], s3);
    assert [s0, s1, s2] + [s3] == req;
  }

  /** The document splits into the required pairs, then what the optional calls store. */
  lemma LineDocumentSplit(st: LineState, env: Collaborators)
    ensures |LineCalls(st, env).Setters()| == 12
    ensures LineDocument(st, env) == Emitted(LineRequiredCalls(st).Setters()) + Emitted(LineCalls(st, env).Setters()[4..])
  {
    var req := LineRequiredCalls(st).Setters();
    var all := LineCalls(st, env).Setters();
    LineRequiredSetters(st);
    LineSetters(st, env);
    LineDocumentIsEmitted(st, env);
    assert all == req + all[4..];
    EmittedAppend(req, all[4..]);
  }

  /** `description`, `quantity`, `unitPrice` and `totalAmount` are always the first four members, in that order. */
  lemma LineRequiredFirst(st: LineState, env: Collaborators)
    ensures var d := LineDocument(st, env);
      && |d| >= 4
      && d[..4] == [
        ("description", Str(st.description)),
        ("quantity", Int(st.quantity)),
        ("unitPrice", MollieAmount.JsonSerialize(st.unitPrice)),
        ("totalAmount", MollieAmount.JsonSerialize(st.totalAmount)) ]
  {
    LineDocumentSplit(st, env);
    LineRequiredEmitted(st);
  }

  /**
   * A line as `new Line` (or `Lines::new_line`) leaves it, every optional
   * field null, serialises to exactly its four required members.
   */
  lemma LineFreshDocument(st: LineState, env: Collaborators)
    requires st.id.None? && st.kind.None? && st.discountAmount.None? && st.vatRate.None?
    requires st.vatAmount.None? && st.sku.None? && st.imageUrl.None? && st.productUrl.None?
    ensures LineDocument(st, env) == [
      ("description", Str(st.description)),
      ("quantity", Int(st.quantity)),
      ("unitPrice", MollieAmount.JsonSerialize(st.unitPrice)),
      ("totalAmount", MollieAmount.JsonSerialize(st.totalAmount)) ]
  {
    LineDocumentSplit(st, env);
    LineRequiredEmitted(st);
    LineSetters(st, env);
    LineRequiredSetters(st);
    var opt := LineCalls(st, env).Setters()[4..];
    assert forall i :: 0 <= i < |opt| ==> !Emits(opt[i]);
    EmittedNothing(opt);
  }

  /** Every optional field other than the VAT pair appears as its key iff it is non-null, with its value. */
  lemma LineOptionalFields(st: LineState, env: Collaborators)
    ensures var d := LineDocument(st, env);
      && OptionalMember(d, "id", OptStr(st.id))
      && OptionalMember(d, "type", OptStr(st.kind))
      && OptionalMember(d, "discountAmount", OptJson(st.discountAmount))
      && OptionalMember(d, "sku", OptStr(st.sku))
      && OptionalMember(d, "imageUrl", OptStr(st.imageUrl))
      && OptionalMember(d, "productUrl", OptStr(st.productUrl))
  {
    var ss := LineCalls(st, env).Setters();
    LineSetters(st, env);
    LineSetterKeys(st, env);
    LineKeysDistinct();
    ReplayIsRun(LineCalls(st, env));
    MemberAt(ss, 4);
    MemberAt(ss, 5);
    MemberAt(ss, 6);
    MemberAt(ss, 9);
    MemberAt(ss, 10);
    MemberAt(ss, 11);
  }

  /**
   * VAT suppression: `vatRate` is present iff a rate is set and is not zero,
   * and then holds the rate with two decimals; `vatAmount` is present iff an
   * amount is set and is not zero, and then holds the amount's serialisation.
   */
  lemma LineVatRules(st: LineState, env: Collaborators)
    ensures var d := LineDocument(st, env);
      && (HasKey(d, "vatRate") <==> st.vatRate.Some? && !env.numberIsZero(st.vatRate.value))
      && (HasKey(d, "vatRate") ==> Lookup(d, "vatRate") == Some(Str(env.numberFormat2(st.vatRate.value))))
      && (HasKey(d, "vatAmount") <==> st.vatAmount.Some? && !env.amountIsZero(st.vatAmount.value))
      && (HasKey(d, "vatAmount") ==> Lookup(d, "vatAmount") == Some(MollieAmount.JsonSerialize(st.vatAmount.value)))
  {
    var ss := LineCalls(st, env).Setters();
    LineSetters(st, env);
    LineSetterKeys(st, env);
    LineKeysDistinct();
    ReplayIsRun(LineCalls(st, env));
    MemberAt(ss, 7);
    MemberAt(ss, 8);
  }

  /** The document's keys are unique and follow LineKeys order. */
  lemma LineKeyOrder(st: LineState, env: Collaborators)
    ensures NoDuplicates(Keys(LineDocument(st, env)))
    ensures Subsequence(Keys(LineDocument(st, env)), LineKeys)
  {
    LineSetters(st, env);
    LineSetterKeys(st, env);
    LineKeysDistinct();
    ReplayIsRun(LineCalls(st, env));
    RunKeysInCallOrder(LineCalls(st, env).Setters());
  }

  /** The four required members hold their values. */
  lemma LineRequiredMembers(st: LineState, env: Collaborators)
    ensures var d := LineDocument(st, env);
      && RequiredMember(d, "description", Str(st.description))
      && RequiredMember(d, "quantity", Int(st.quantity))
      && RequiredMember(d, "unitPrice", MollieAmount.JsonSerialize(st.unitPrice))
      && RequiredMember(d, "totalAmount", MollieAmount.JsonSerialize(st.totalAmount))
  {
    var d := LineDocument(st, env);
    LineRequiredFirst(st, env);
    LineDocumentIsEmitted(st, env);
    assert d[0] == d[..4][0] && d[1] == d[..4][1] && d[2] == d[..4][2] && d[3] == d[..4][3];
    LookupAt(d, 0);
    LookupAt(d, 1);
    LookupAt(d, 2);
    LookupAt(d, 3);
  }

  /**
   * Round trip: `from_json` reads back the line `jsonSerialize` wrote when
   * the line uses only what `from_object` restores (no type, discount or
   * URLs) and has a non-zero VAT rate and amount, provided the number library
   * parses the two-decimal rendering of the rate back to the same number.
   */
  lemma LineRoundTrip(st: LineState, env: Collaborators)
    requires st.kind.None? && st.discountAmount.None? && st.imageUrl.None? && st.productUrl.None?
    requires st.vatRate.Some? && !env.numberIsZero(st.vatRate.value)
    requires env.numberFromString(Str(env.numberFormat2(st.vatRate.value))) == Success(st.vatRate.value)
    requires st.vatAmount.Some? && !env.amountIsZero(st.vatAmount.value)
    ensures LineFromObject(LineDocument(st, env), env) == Success(st)
    ensures LineFromJson(Obj(LineDocument(st, env)), env) == Success(st)
  {
    var d := LineDocument(st, env);
    LineRequiredMembers(st, env);
    LineOptionalFields(st, env);
    LineVatRules(st, env);
    PropertyOfMember(d, "description", Str(st.description));
    PropertyOfMember(d, "quantity", Int(st.quantity));
    PropertyOfMember(d, "unitPrice", MollieAmount.JsonSerialize(st.unitPrice));
    PropertyOfMember(d, "totalAmount", MollieAmount.JsonSerialize(st.totalAmount));
    PropertyOfMember(d, "id", OptStr(st.id));
    PropertyOfMember(d, "sku", OptStr(st.sku));
    assert RequiredMember(d, "vatRate", Str(env.numberFormat2(st.vatRate.value)));
    PropertyOfMember(d, "vatRate", Str(env.numberFormat2(st.vatRate.value)));
    assert RequiredMember(d, "vatAmount", MollieAmount.JsonSerialize(st.vatAmount.value));
    PropertyOfMember(d, "vatAmount", MollieAmount.JsonSerialize(st.vatAmount.value));
    FromValueRoundTrip(st.unitPrice);
    FromValueRoundTrip(st.totalAmount);
    FromValueRoundTrip(st.vatAmount.value);
  }
}
