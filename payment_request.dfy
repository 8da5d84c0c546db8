/**
 * A payment request: the amount and description, always sent first, then the
 * optional parameters in a fixed order, with the due date written as
 * `YYYY-MM-DD` between the billing email and the card token.
 */
module MolliePaymentRequest {
  import opened Wrappers
  import opened Json
  import opened MollieObjectBuilder
  import opened MollieAmount
  import opened Dates

  /** The fields of a payment request, in declaration order; metadata is any JSON value, `Null` when unset. */
  datatype PaymentRequestState = PaymentRequestState(
    amount: Amount,
    description: Option<string>,
    redirectUrl: Option<string>,
    webhookUrl: Option<string>,
    paymentMethod: Option<string>,
    metadata: Wire,
    locale: Option<string>,
    issuer: Option<string>,
    billingEmail: Option<string>,
    dueDate: Option<Date>,
    customerId: Option<string>,
    sequenceType: Option<string>,
    mandateId: Option<string>,
    consumerName: Option<string>,
    consumerAccount: Option<string>,
    cardToken: Option<string>)

  /** The wire keys in the order the serialisation visits them. */
  const PaymentKeys: seq<string> := [
    "amount", "description", "redirectUrl", "webhookUrl", "locale", "method", "metadata",
    "sequenceType", "customerId", "mandateId", "billingEmail", "dueDate",
    "cardToken", "issuer", "consumerName", "consumerAccount"]

  /** The due date as offered to the builder: null when there is none, else its `Y-m-d` rendering. */
  function DueDateWire(dueDate: Option<Date>): Wire
  {
    if dueDate.None? then Null else Str(FormatYmd(dueDate.value))
  }

  /** The general calls, up to and including `metadata`. */
  function PaymentGeneralCalls(st: PaymentRequestState): Calls
  {
    Start
      .SetRequired("amount", MollieAmount.JsonSerialize(st.amount))
      .SetRequired("description", OptStr(st.description))
      .SetOptional("redirectUrl", OptStr(st.redirectUrl))
      .SetOptional("webhookUrl", OptStr(st.webhookUrl))
      .SetOptional("locale", OptStr(st.locale))
      .SetOptional("method", OptStr(st.paymentMethod))
      .SetOptional("metadata", st.metadata)
  }

  /** The calls up to and including `billingEmail`. */
  function PaymentHeadCalls(st: PaymentRequestState): Calls
  {
    PaymentGeneralCalls(st)
      .SetOptional("sequenceType", OptStr(st.sequenceType))
      .SetOptional("customerId", OptStr(st.customerId))
      .SetOptional("mandateId", OptStr(st.mandateId))
      .SetOptional("billingEmail", OptStr(st.billingEmail))
  }

  /** The log of `jsonSerialize`: the due date is set only when there is one. */
  function PaymentCalls(st: PaymentRequestState): Calls
  {
    var head := PaymentHeadCalls(st);
    var withDue := if st.dueDate.Some? then head.SetOptional("dueDate", Str(FormatYmd(st.dueDate.value))) else head;
    withDue
      .SetOptional("cardToken", OptStr(st.cardToken))
      .SetOptional("issuer", OptStr(st.issuer))
      .SetOptional("consumerName", OptStr(st.consumerName))
      .SetOptional("consumerAccount", OptStr(st.consumerAccount))
  }

  /** The members `jsonSerialize` produces. */
  function PaymentDocument(st: PaymentRequestState): Doc
  {
    Replay(PaymentCalls(st))
  }

  /** The same calls with the due date always offered, null when there is none: sixteen calls in key order. */
  function PaymentSetters(st: PaymentRequestState): seq<Setter>
  {
    [ Setter(Required, "amount", MollieAmount.JsonSerialize(st.amount)),
      Setter(Required, "description", OptStr(st.description)),
      Setter(Optional, "redirectUrl", OptStr(st.redirectUrl)),
      Setter(Optional, "webhookUrl", OptStr(st.webhookUrl)),
      Setter(Optional, "locale", OptStr(st.locale)),
      Setter(Optional, "method", OptStr(st.paymentMethod)),
      Setter(Optional, "metadata", st.metadata),
      Setter(Optional, "sequenceType", OptStr(st.sequenceType)),
      Setter(Optional, "customerId", OptStr(st.customerId)),
      Setter(Optional, "mandateId", OptStr(st.mandateId)),
      Setter(Optional, "billingEmail", OptStr(st.billingEmail)),
      Setter(Optional, "dueDate", DueDateWire(st.dueDate)),
      Setter(Optional, "cardToken", OptStr(st.cardToken)),
      Setter(Optional, "issuer", OptStr(st.issuer)),
      Setter(Optional, "consumerName", OptStr(st.consumerName)),
      Setter(Optional, "consumerAccount", OptStr(st.consumerAccount)) ]
  }

  class PaymentRequest {
    var amount: Amount
    var description: Option<string>
    var redirectUrl: Option<string>
    var webhookUrl: Option<string>
    var paymentMethod: Option<string>
    var metadata: Wire
    var locale: Option<string>
    var issuer: Option<string>
    var billingEmail: Option<string>
    var dueDate: Option<Date>
    var customerId: Option<string>
    var sequenceType: Option<string>
    var mandateId: Option<string>
    var consumerName: Option<string>
    var consumerAccount: Option<string>
    var cardToken: Option<string>

    function State(): PaymentRequestState
      reads this
    {
      PaymentRequestState(amount, description, redirectUrl, webhookUrl, paymentMethod, metadata, locale, issuer,
                          billingEmail, dueDate, customerId, sequenceType, mandateId, consumerName,
                          consumerAccount, cardToken)
    }

    /** `new PaymentRequest($amount, $description)`: both are stored and every other field is unset. */
    constructor (amount: Amount, description: Option<string>)
      ensures State() == PaymentRequestState(amount, description, None, None, None, Null, None, None,
                                             None, None, None, None, None, None, None, None)
    {
      this.amount := amount;
      this.description := description;
      this.redirectUrl := None;
      this.webhookUrl := None;
      this.paymentMethod := None;
      this.metadata := Null;
      this.locale := None;
      this.issuer := None;
      this.billingEmail := None;
      this.dueDate := None;
      this.customerId := None;
      this.sequenceType := None;
      this.mandateId := None;
      this.consumerName := None;
      this.consumerAccount := None;
      this.cardToken := None;
    }

    function GetMethod(): Option<string>
      reads this
    {
      paymentMethod
    }

    /** `set_method`: only the method changes, and the getter then returns it. */
    method SetMethod(paymentMethod: Option<string>)
      modifies this
      ensures State() == old(State()).(paymentMethod := paymentMethod)
      ensures GetMethod() == paymentMethod
    {
      this.paymentMethod := paymentMethod;
    }

    function GetDueDate(): Option<Date>
      reads this
    {
      dueDate
    }

    /** `set_due_date`: only the due date changes, and the getter then returns it. */
    method SetDueDate(dueDate: Option<Date>)
      modifies this
      ensures State() == old(State()).(dueDate := dueDate)
      ensures GetDueDate() == dueDate
    {
      this.dueDate := dueDate;
    }

    function GetBillingEmail(): Option<string>
      reads this
    {
      billingEmail
    }

    /** `set_billing_email`: only the billing email changes, and the getter then returns it. */
    method SetBillingEmail(email: Option<string>)
      modifies this
      ensures State() == old(State()).(billingEmail := email)
      ensures GetBillingEmail() == email
    {
      this.billingEmail := email;
    }

    function GetSequenceType(): Option<string>
      reads this
    {
      sequenceType
    }

    /** `set_sequence_type`: only the sequence type changes, and the getter then returns it. */
    method SetSequenceType(sequenceType: Option<string>)
      modifies this
      ensures State() == old(State()).(sequenceType := sequenceType)
      ensures GetSequenceType() == sequenceType
    {
      this.sequenceType := sequenceType;
    }

    function GetMandateId(): Option<string>
      reads this
    {
      mandateId
    }

    /** `set_mandate_id`: only the mandate id changes, and the getter then returns it. */
    method SetMandateId(mandateId: Option<string>)
      modifies this
      ensures State() == old(State()).(mandateId := mandateId)
      ensures GetMandateId() == mandateId
    {
      this.mandateId := mandateId;
    }

    function GetMetadata(): Wire
      reads this
    {
      metadata
    }

    /** `set_metadata`: only the metadata changes, and the getter then returns it. */
    method SetMetadata(metadata: Wire)
      modifies this
      ensures State() == old(State()).(metadata := metadata)
      ensures GetMetadata() == metadata
    {
      this.metadata := metadata;
    }

    /** `jsonSerialize`: drives a fresh builder through PaymentCalls; the request is not changed. */
    method JsonSerialize() returns (doc: Wire)
      ensures doc == Obj(PaymentDocument(State()))
    {
      var st := State();
      var b := new ObjectBuilder();
      b.SetRequired("amount", MollieAmount.JsonSerialize(st.amount));
      b.SetRequired("description", OptStr(st.description));
      b.SetOptional("redirectUrl", OptStr(st.redirectUrl));
      b.SetOptional("webhookUrl", OptStr(st.webhookUrl));
      b.SetOptional("locale", OptStr(st.locale));
      b.SetOptional("method", OptStr(st.paymentMethod));
      b.SetOptional("metadata", st.metadata);
      b.SetOptional("sequenceType", OptStr(st.sequenceType));
      b.SetOptional("customerId", OptStr(st.customerId));
      b.SetOptional("mandateId", OptStr(st.mandateId));
      b.SetOptional("billingEmail", OptStr(st.billingEmail));
      var dueDate := st.dueDate;
      if dueDate.Some? {
        b.SetOptional("dueDate", Str(FormatYmd(dueDate.value)));
      }
      b.SetOptional("cardToken", OptStr(st.cardToken));
      b.SetOptional("issuer", OptStr(st.issuer));
      b.SetOptional("consumerName", OptStr(st.consumerName));
      b.SetOptional("consumerAccount", OptStr(st.consumerAccount));
      doc := b.JsonSerialize();
    }
  }

  // ---------------------------------------------------------------- lemmas

  /** No wire key of a payment request is used twice. */
  lemma PaymentKeysDistinct()
    ensures NoDuplicates(PaymentKeys)
  {
  }

  lemma PaymentSetterKeys(st: PaymentRequestState)
    ensures SetterKeys(PaymentSetters(st)) == PaymentKeys
  {
  }

  /** The general calls are the first seven of the sixteen. */
  lemma PaymentGeneralSetters(st: PaymentRequestState)
    ensures PaymentGeneralCalls(st).Setters() == PaymentSetters(st)[..7]
  {
    SettersSnoc();
  }

  /** The calls up to `billingEmail` are the first eleven of the sixteen. */
  lemma PaymentHeadSetters(st: PaymentRequestState)
    ensures PaymentHeadCalls(st).Setters() == PaymentSetters(st)[..11]
  {
    var ss := PaymentSetters(st);
    PaymentGeneralSetters(st);
    SettersSnoc();
    assert ss[..11] == ss[..7] + [ss[7]] + [ss[8]] + [ss[9]] + [ss[10]];
  }

  /** The logged calls are the sixteen calls with the due date's dropped when there is none. */
  lemma PaymentCallsSetters(st: PaymentRequestState)
    ensures var ss := PaymentSetters(st);
      PaymentCalls(st).Setters() == if st.dueDate.Some? then ss else ss[..11] + ss[12..]
  {
    var ss := PaymentSetters(st);
    var head := PaymentHeadCalls(st);
    var withDue := if st.dueDate.Some? then head.SetOptional("dueDate", Str(FormatYmd(st.dueDate.value))) else head;
    PaymentHeadSetters(st);
    SettersSnoc();
    assert withDue.Setters() == if st.dueDate.Some? then ss[..12] else ss[..11];
    assert ss[12..] == [ss[12], ss[13], ss[14], ss[15]];
    if st.dueDate.Some? {
      assert ss == ss[..12] + [ss[12]] + [ss[13]] + [ss[14]] + [ss[15]];
    } else {
      assert ss[..11] + ss[12..] == ss[..11] + [ss[12]] + [ss[13]] + [ss[14]] + [ss[15]];
    }
  }

  /** The document is what the sixteen calls produce: an optional null call stores nothing. */
  lemma PaymentDocumentIsRun(st: PaymentRequestState)
    ensures PaymentDocument(st) == Run(PaymentSetters(st))
    ensures PaymentDocument(st) == Emitted(PaymentSetters(st))
    ensures NoDuplicates(Keys(PaymentDocument(st)))
  {
    var ss := PaymentSetters(st);
    PaymentCallsSetters(st);
    ReplayIsRun(PaymentCalls(st));
    if st.dueDate.None? {
      assert ss == ss[..11] + [ss[11]] + ss[12..];
      RunSkipNull(ss[..11], ss[11], ss[12..]);
    }
    PaymentKeysDistinct();
    PaymentSetterKeys(st);
    RunIsEmitted(ss);
  }

  /** `amount` and `description` are always the first two members, a null description included. */
  lemma PaymentRequiredFirst(st: PaymentRequestState)
    ensures var d := PaymentDocument(st);
      && |d| >= 2
      && d[..2] == [("amount", MollieAmount.JsonSerialize(st.amount)), ("description", OptStr(st.description))]
  {
    PaymentDocumentIsRun(st);
    EmittedRequiredPrefix(PaymentSetters(st), 2);
  }

  /** Each optional parameter appears as its key iff it is set, holding its value. */
  lemma PaymentOptionalMembers(st: PaymentRequestState)
    ensures var d := PaymentDocument(st);
      && OptionalMember(d, "redirectUrl", OptStr(st.redirectUrl))
      && OptionalMember(d, "webhookUrl", OptStr(st.webhookUrl))
      && OptionalMember(d, "locale", OptStr(st.locale))
      && OptionalMember(d, "method", OptStr(st.paymentMethod))
      && OptionalMember(d, "metadata", st.metadata)
      && OptionalMember(d, "sequenceType", OptStr(st.sequenceType))
      && OptionalMember(d, "customerId", OptStr(st.customerId))
  {
    var ss := PaymentSetters(st);
    PaymentDocumentIsRun(st);
    PaymentKeysDistinct();
    PaymentSetterKeys(st);
    MemberAt(ss, 2);
    MemberAt(ss, 3);
    MemberAt(ss, 4);
    MemberAt(ss, 5);
    MemberAt(ss, 6);
    MemberAt(ss, 7);
    MemberAt(ss, 8);
  }

  /** The remaining optional parameters, after the recurring ones. */
  lemma PaymentOptionalMembersTail(st: PaymentRequestState)
    ensures var d := PaymentDocument(st);
      && OptionalMember(d, "mandateId", OptStr(st.mandateId))
      && OptionalMember(d, "billingEmail", OptStr(st.billingEmail))
      && OptionalMember(d, "cardToken", OptStr(st.cardToken))
      && OptionalMember(d, "issuer", OptStr(st.issuer))
      && OptionalMember(d, "consumerName", OptStr(st.consumerName))
      && OptionalMember(d, "consumerAccount", OptStr(st.consumerAccount))
  {
    var ss := PaymentSetters(st);
    PaymentDocumentIsRun(st);
    PaymentKeysDistinct();
    PaymentSetterKeys(st);
    MemberAt(ss, 9);
    MemberAt(ss, 10);
    MemberAt(ss, 12);
    MemberAt(ss, 13);
    MemberAt(ss, 14);
    MemberAt(ss, 15);
  }

  /** `dueDate` is present iff a due date is set, and then holds it as `YYYY-MM-DD`. */
  lemma PaymentDueDate(st: PaymentRequestState)
    ensures var d := PaymentDocument(st);
      && (HasKey(d, "dueDate") <==> st.dueDate.Some?)
      && (st.dueDate.Some? ==> Lookup(d, "dueDate") == Some(Str(FormatYmd(st.dueDate.value))))
  {
    var ss := PaymentSetters(st);
    PaymentDocumentIsRun(st);
    PaymentKeysDistinct();
    PaymentSetterKeys(st);
    MemberAt(ss, 11);
  }

  /** The document's keys are unique and follow PaymentKeys order: `dueDate` sits between `billingEmail` and `cardToken`. */
  lemma PaymentKeyOrder(st: PaymentRequestState)
    ensures NoDuplicates(Keys(PaymentDocument(st)))
    ensures Subsequence(Keys(PaymentDocument(st)), PaymentKeys)
  {
    PaymentDocumentIsRun(st);
    PaymentKeysDistinct();
    PaymentSetterKeys(st);
    RunKeysInCallOrder(PaymentSetters(st));
  }

  /**
   * A request with only amount, description and metadata set serialises to
   * exactly those three members, in that order.
   */
  lemma PaymentMetadataOnly(amount: Amount, description: string, metadata: Wire)
    requires metadata != Null
    ensures PaymentDocument(PaymentRequestState(amount, Some(description), None, None, None, metadata, None, None,
                                                None, None, None, None, None, None, None, None))
      == [("amount", MollieAmount.JsonSerialize(amount)), ("description", Str(description)), ("metadata", metadata)]
  {
    var st := PaymentRequestState(amount, Some(description), None, None, None, metadata, None, None,
                                  None, None, None, None, None, None, None, None);
    var ss := PaymentSetters(st);
    PaymentDocumentIsRun(st);
    PaymentRequiredFirst(st);
    assert ss == ss[..2] + ss[2..6] + [ss[6]] + ss[7..];
    EmittedAppend(ss[..2] + ss[2..6] + [ss[6]], ss[7..]);
    EmittedAppend(ss[..2] + ss[2..6], [ss[6]]);
    EmittedAppend(ss[..2], ss[2..6]);
    assert ss[..2] + ss[2..] == ss;
    EmittedAppend(ss[..2], ss[2..]);
    EmittedNothing(ss[2..6]);
    EmittedNothing(ss[7..]);
    EmittedSnoc([], ss[6]);
    assert [] + [ss[6]] == [ss[6]];
  }

  /** Example: a due date of 9 March 2025 is sent as "2025-03-09". */
  lemma PaymentDueDateExample(st: PaymentRequestState)
    requires st.dueDate == Some(Date(2025, 3, 9))
    ensures Lookup(PaymentDocument(st), "dueDate") == Some(Str("2025-03-09"))
  {
    PaymentDueDate(st);
    FormatYmdExample();
  }
}
