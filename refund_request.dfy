/**
 * A refund request: the amount to refund, always sent, then an optional
 * description and optional metadata.
 */
module MollieRefundRequest {
  import opened Wrappers
  import opened Json
  import opened MollieObjectBuilder
  import opened MollieAmount

  /** The fields of a refund request; metadata is any JSON value, `Null` when unset. */
  datatype RefundRequestState = RefundRequestState(amount: Amount, description: Option<string>, metadata: Wire)

  /** The log of `jsonSerialize`. */
  function RefundRequestCalls(st: RefundRequestState): Calls
  {
    Start
      .SetRequired("amount", MollieAmount.JsonSerialize(st.amount))
      .SetOptional("description", OptStr(st.description))
      .SetOptional("metadata", st.metadata)
  }

  /** The members `jsonSerialize` produces. */
  function RefundRequestDocument(st: RefundRequestState): Doc
  {
    Replay(RefundRequestCalls(st))
  }

  class RefundRequest {
    var amount: Amount
    var description: Option<string>
    var metadata: Wire

    function State(): RefundRequestState
      reads this
    {
      RefundRequestState(amount, description, metadata)
    }

    /** `new RefundRequest($amount)`: the amount is stored; description and metadata are unset. */
    constructor (amount: Amount)
      ensures State() == RefundRequestState(amount, None, Null)
    {
      this.amount := amount;
      this.description := None;
      this.metadata := Null;
    }

    function GetDescription(): Option<string>
      reads this
    {
      description
    }

    /** `set_description`: only the description changes, and the getter then returns it. */
    method SetDescription(description: Option<string>)
      modifies this
      ensures State() == old(State()).(description := description)
      ensures GetDescription() == description
    {
      this.description := description;
    }

    function GetMetadata(): Wire
      reads this
    {
      metadata
    }

    /** `set_metadata`: only the metadata changes, and the getter then returns it. */
    method SetMetadata(metadata: Wire)
      modifies this
      ensures State() == old(State()).(metadata := metadata)
      ensures GetMetadata() == metadata
    {
      this.metadata := metadata;
    }

    /** `jsonSerialize`: drives a fresh builder through RefundRequestCalls; the request is not changed. */
    method JsonSerialize() returns (doc: Wire)
      ensures doc == Obj(RefundRequestDocument(State()))
    {
      var st := State();
      var b := new ObjectBuilder();
      b.SetRequired("amount", MollieAmount.JsonSerialize(st.amount));
      b.SetOptional("description", OptStr(st.description));
      b.SetOptional("metadata", st.metadata);
      doc := b.JsonSerialize();
    }
  }

  // ---------------------------------------------------------------- lemmas

  /**
   * The whole document: `amount` first, then `description` only when set,
   * then `metadata` only when non-null, each holding its field's value.
   */
  lemma RefundRequestDocumentExact(st: RefundRequestState)
    ensures RefundRequestDocument(st) ==
      [("amount", MollieAmount.JsonSerialize(st.amount))]
      + (if st.description.Some? then [("description", Str(st.description.value))] else [])
      + (if st.metadata != Null then [("metadata", st.metadata)] else [])
  {
    var c := RefundRequestCalls(st);
    var ss := c.Setters();
    SettersSnoc();
    assert ss == [ss[0], ss[1], ss[2]];
    assert SetterKeys(ss) == ["amount", "description", "metadata"];
    ReplayIsRun(c);
    RunIsEmitted(ss);
    EmittedSnocAll();
    assert ss == [] + [ss[0]] + [ss[1]] + [ss[2]];
  }

  /** A request as the constructor leaves it serialises to the single key `amount`. */
  lemma RefundRequestFreshDocument(amount: Amount)
    ensures RefundRequestDocument(RefundRequestState(amount, None, Null)) == [("amount", MollieAmount.JsonSerialize(amount))]
  {
    RefundRequestDocumentExact(RefundRequestState(amount, None, Null));
  }
}
