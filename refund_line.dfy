/**
 * One line of an order refund: the order line's identifier, the quantity to
 * refund and the amount to refund. None of the three can be null, so all
 * three are always sent.
 */
module MollieRefundLine {
  import opened Wrappers
  import opened Json
  import opened MollieObjectBuilder
  import opened MollieAmount
  import opened ScalarCoercion

  datatype RefundLineState = RefundLineState(id: string, quantity: int, amount: Amount)

  /**
   * The constructor's default amount, `new Amount('EUR', 0)`: the integer 0
   * reaches a `string` property, which stores its text.
   */
  const DefaultAmount: Amount := Amount("EUR", IntText(0))

  /** The log of `jsonSerialize`. */
  function RefundLineCalls(st: RefundLineState): Calls
  {
    Start
      .SetRequired("id", Str(st.id))
      .SetOptional("quantity", Int(st.quantity))
      .SetOptional("amount", MollieAmount.JsonSerialize(st.amount))
  }

  /** The members `jsonSerialize` produces. */
  function RefundLineDocument(st: RefundLineState): Doc
  {
    Replay(RefundLineCalls(st))
  }

  /**
   * The guard of `from_json`: anything but an object is refused with the
   * invalid-argument error; an object goes on to schema validation and
   * `from_object`, which are not part of this model.
   */
  function RefundLineFromJsonGuard(json: Wire): (r: Result<Doc, Failure>)
    ensures r.Failure? <==> !json.Obj?
    ensures r.Failure? ==> r.error == InvalidArgument(NotAnObject)
    ensures r.Success? ==> r.value == json.fields
  {
    RequireObject(json)
  }

  class RefundLine {
    var id: string
    var quantity: int
    var amount: Amount

    function State(): RefundLineState
      reads this
    {
      RefundLineState(id, quantity, amount)
    }

    /** `new RefundLine($id)`: the identifier, quantity 0 and zero euros. */
    constructor (id: string)
      ensures State() == RefundLineState(id, 0, DefaultAmount)
    {
      this.id := id;
      this.quantity := 0;
      this.amount := DefaultAmount;
    }

    function GetId(): string
      reads this
    {
      id
    }

    /** `set_id`: only the identifier changes, and the getter then returns it. */
    method SetId(id: string)
      modifies this
      ensures State() == old(State()).(id := id)
      ensures GetId() == id
    {
      this.id := id;
    }

    function GetQuantity(): int
      reads this
    {
      quantity
    }

    /** `set_quantity`: only the quantity changes, and the getter then returns it. */
    method SetQuantity(quantity: int)
      modifies this
      ensures State() == old(State()).(quantity := quantity)
      ensures GetQuantity() == quantity
    {
      this.quantity := quantity;
    }

    function GetAmount(): Amount
      reads this
    {
      amount
    }

    /** `set_amount`: only the amount changes, and the getter then returns it. */
    method SetAmount(amount: Amount)
      modifies this
      ensures State() == old(State()).(amount := amount)
      ensures GetAmount() == amount
    {
      this.amount := amount;
    }

    /** `jsonSerialize`: drives a fresh builder through RefundLineCalls; the line is not changed. */
    method JsonSerialize() returns (doc: Wire)
      ensures doc == Obj(RefundLineDocument(State()))
    {
      var st := State();
      var b := new ObjectBuilder();
      b.SetRequired("id", Str(st.id));
      b.SetOptional("quantity", Int(st.quantity));
      b.SetOptional("amount", MollieAmount.JsonSerialize(st.amount));
      doc := b.JsonSerialize();
    }
  }

  // ---------------------------------------------------------------- lemmas

  /**
   * The whole document: `id`, `quantity` and `amount`, in that order, always
   * all three: `set_optional` drops only null, and none of the three is null.
   */
  lemma RefundLineDocumentExact(st: RefundLineState)
    ensures RefundLineDocument(st) ==
      [("id", Str(st.id)), ("quantity", Int(st.quantity)), ("amount", MollieAmount.JsonSerialize(st.amount))]
  {
    var c := RefundLineCalls(st);
    var ss := c.Setters();
    SettersSnoc();
    assert ss == [ss[0], ss[1], ss[2]];
    assert SetterKeys(ss) == ["id", "quantity", "amount"];
    ReplayIsRun(c);
    RunIsEmitted(ss);
    EmittedSnocAll();
    assert ss == [] + [ss[0]] + [ss[1]] + [ss[2]];
  }

  /** A line as the constructor leaves it: quantity 0 is still sent, with the zero euro amount. */
  lemma RefundLineFreshDocument(id: string)
    ensures RefundLineDocument(RefundLineState(id, 0, DefaultAmount)) ==
      [("id", Str(id)), ("quantity", Int(0)),
       ("amount", Obj([("currency", Str("EUR")), ("value", Str("0"))]))]
  {
    CoercionExamples();
    RefundLineDocumentExact(RefundLineState(id, 0, DefaultAmount));
  }
}
