# Mollie wire documents, modelled in Dafny

This project models how the Mollie client library for WordPress (pronamic/wp-mollie)
turns its request and value objects into the ordered key/value documents that are
JSON-encoded and sent to the Mollie API. It also proves properties of that model.

- **The ordered-map builder** (`ObjectBuilder`), in `object_builder.dfy`. A class over a
  list of members. `set_optional` drops null. `set_required` stores even null.
  Re-assigning a key keeps the key's first position; a new key goes at the end.
  - PHP array assignment itself is `Json.Put` (`json.dfy`). A decoded JSON value is `Json.Wire`.
  - The builder keeps a ghost log of its calls, so each `jsonSerialize` can be proved
    against a per-type call chain (`AddressCalls`, `LineCalls`, `PaymentCalls`, ...).
  - General lemmas turn a call chain with distinct keys into its declarative result:
    the storing calls' pairs, in call order.
- **Hand-written `jsonSerialize` methods** of `Amount`, `Address`, `Line`, `PaymentRequest`,
  `RefundRequest` and `RefundLine`. Each class keeps its mutable fields. `State()` reads
  them as a plain record, and the lemmas are stated on that record. Two value-dependent
  rules are proved:
  - the address email-completeness rule;
  - the line VAT zero-suppression.
- **Constructor guards and `from_json` guards**: the two-byte country check, and the
  rejection of anything that is not an object.
- **List containers** (`Lines`, `RefundLines`, `OrderRefundLinesRequest`): `new_line`
  appends, and `jsonSerialize` maps the elements in order.
- **The attribute-driven serialiser** (`RemoteSerializer`). Reflection is replaced by an
  explicit, ordered list of property descriptors.
- **Small extras**: the `PaymentDetails` property-bag copy and the `Error` exception.

The library's own collaborators are parameters, not models:
- the `Number` library (is-zero, two-decimal formatting, parsing);
- the money library's is-zero test.

Three facts about the code that shape the documents:
- `PaymentRequest::jsonSerialize` sends no `lines`, `billingAddress`, `shippingAddress`
  or `cancelUrl`.
- `Line` sends `totalAmount` with `set_required`: it is always present.
- `Line` has no `categories` member.

No file of the library declares strict types, so the readers run in PHP's coercive
typing mode: a typed `string` slot turns an integer into its decimal text and a boolean
into "1" or "", and an `int` slot reads an integer string as its value
(`scalar_coercion.dfy`).

## Model

| member | source | states |
|---|---|---|
| MollieObjectBuilder.ObjectBuilder.constructor | src/ObjectBuilder.php:24 | a new builder holds no member and has logged no call |
| MollieObjectBuilder.ObjectBuilder.SetOptional | src/ObjectBuilder.php:33-39 | the data becomes the optional-call result on the old data; the log grows by that call and stays in step with the data |
| MollieObjectBuilder.ObjectBuilder.SetRequired | src/ObjectBuilder.php:48-50 | the data becomes the old data with the key assigned, null included; the log grows by that call |
| MollieObjectBuilder.ObjectBuilder.SetValue | src/ObjectBuilder.php:59-61 | the data becomes PHP array assignment on the old data; the log is unchanged |
| MollieObjectBuilder.ObjectBuilder.JsonSerialize | src/ObjectBuilder.php:69-71 | the result is exactly the stored pairs as an object; the builder is not modified |
| MollieObjectBuilder.ApplyOptional | src/ObjectBuilder.php:33-39 | with null the data is exactly unchanged; otherwise the key holds the value afterwards |
| MollieObjectBuilder.ApplyRequired | src/ObjectBuilder.php:48-50 | the key is present afterwards and holds the value, null included |
| Json.PutFresh | src/ObjectBuilder.php:59-61 | assigning a key that is not present appends it after all existing members |
| Json.PutExisting | src/ObjectBuilder.php:59-61 | assigning a present key replaces only its value, in its original position; every other member is unchanged |
| Json.PutLookup | src/ObjectBuilder.php:59-61 | after an assignment the key reads the new value, and every other key reads what it read before |
| Json.PutKeys | src/ObjectBuilder.php:59-61 | the key list gains the key at the end only when it was absent, and stays duplicate-free |
| MollieObjectBuilder.RunKeysUnique | src/ObjectBuilder.php:59-61 | whatever calls are made, the stored keys never repeat |
| MollieObjectBuilder.RunSkipNull | src/ObjectBuilder.php:33-36 | an optional call with null can be removed from any call sequence without changing the result |
| MollieObjectBuilder.RunIsEmitted | src/ObjectBuilder.php:33-61 | with distinct call keys the result is exactly the storing calls' pairs in call order, with no repeated key |
| MollieObjectBuilder.EmittedKeyAt | src/ObjectBuilder.php:33-61 | with distinct call keys, a call's key is present iff the call stores, and then it holds the call's value |
| MollieObjectBuilder.MemberAt | src/ObjectBuilder.php:33-61 | with distinct call keys, an optional call's key is there iff non-null, a required call's key always, with the call's value |
| MollieObjectBuilder.RunKeysInCallOrder | src/ObjectBuilder.php:59-71 | with distinct call keys, the output keys are a subsequence of the call keys: first-insertion order |
| MollieObjectBuilder.EmittedKeySource | src/ObjectBuilder.php:33-61 | every output key comes from a call that stored it |
| MollieObjectBuilder.EmittedAllStored | src/ObjectBuilder.php:48-61 | when every call stores, the output has one pair per call, in order |
| MollieObjectBuilder.EmittedRequiredPrefix | src/ObjectBuilder.php:48-50 | when the first n calls are required, the first n output pairs are theirs |
| MollieObjectBuilder.EmittedNothing | src/ObjectBuilder.php:33-36 | calls that all drop their value leave the document empty |
| MollieAmount.JsonSerialize | src/Amount.php:93-98 | exactly two members, `currency` then `value`, holding the amount's strings |
| MollieAmount.FromObject | src/Amount.php:27-61 | succeeds iff both properties convert in a `string` slot, and then holds their conversions; a failing currency is the error reported |
| MollieAmount.FromObjectCoercionExample | src/Amount.php:35-61 | `{"currency":"EUR","value":10}` reads as the amount EUR "10" |
| MollieAmount.FromJson | src/Amount.php:70-76 | a non-object is refused with the invalid-argument error; an object is read by `from_object` |
| MollieAmount.FromValue | src/Amount.php:54-61 | the `object`-typed parameter refuses every non-object with a type error |
| MollieAmount.FromJsonRoundTrip | src/Amount.php:54-98 | reading back the serialisation gives the same amount, through `from_object` and `from_json` |
| MollieAmount.FromValueRoundTrip | src/Amount.php:54-98 | the same round trip for a nested amount read from a value |
| MollieAmount.OptJson | src/Line.php:190 | a nullable amount is null on the wire iff it is missing, else its serialisation |
| MollieAmount.JsonSerializeExample | src/Amount.php:93-98 | 100.00 EUR is written as `currency` EUR, `value` 100.00 |
| MollieAddress.Address.constructor | src/Address.php:138-143 | stores the six arguments; the six other fields are null |
| MollieAddress.Address.Create | src/Address.php:122-144 | fails iff a country is given whose byte length is not 2, with that country; otherwise a fresh address with the six arguments and the rest null |
| MollieAddress.CountryGuard | src/Address.php:128-135 | an accepted country has one or two characters; for ASCII text acceptance is exactly two characters |
| MollieAddress.CountryGuardExamples | src/Address.php:128-135 | "NL" and null pass; "NLD", "N" and "" fail; the byte count lets one two-byte character pass |
| MollieAddress.Utf8LengthBounds | src/Address.php:128 | the byte length is between one and four times the character count, and equal to it for ASCII |
| MollieAddress.Address.JsonSerialize | src/Address.php:151-178 | the result is the document of the twelve optional calls plus the conditional required email call; the address is not modified |
| MollieAddress.AddressKeysDistinct | src/Address.php:154-165 | the twelve wire keys are pairwise distinct |
| MollieAddress.AddressOptionalSetters | src/Address.php:154-165 | the twelve calls are optional calls on the twelve fields, keys in the listed order |
| MollieAddress.AddressDocumentShape | src/Address.php:154-175 | the document is the twelve calls' document, with `email` assigned again when the postal part is incomplete |
| MollieAddress.AddressOptionalMembers | src/Address.php:154-165 | before the completeness rule, every field is present iff non-null, with its value |
| MollieAddress.AddressOptionalFields | src/Address.php:154-165 | every field other than `email` is present iff non-null, with its value |
| MollieAddress.AddressEmailRule | src/Address.php:173-175 | an incomplete postal part forces `email`, null included; a forced non-null email keeps its place; a forced null email comes last; otherwise email is optional |
| MollieAddress.AddressKeyOrder | src/Address.php:154-175 | keys never repeat and follow the call order, except that a forced null email comes after everything else |
| MollieAddress.AddressOrderRequestExample | tests/src/OrderRequestTest.php:57-69 | the test's billing address has no `title` or `streetAdditional` key, and the other ten keys hold its values |
| MollieAddress.AddressGivenNameOnlyExample | src/Address.php:173-175 | an address with only a given name serialises to that name followed by a null `email` |
| MollieLine.Line.constructor | src/Line.php:120-134 | stores the four arguments; the eight nullable fields are null, so `get_id` returns null |
| MollieLine.LineFromObject | src/Line.php:142-158 | succeeds iff all eight readers succeed; otherwise the error is the first failing reader's, in the order unit price, total amount, description, quantity, id, sku, VAT rate, VAT amount; on success `description` and `quantity` hold their properties' conversions in a `string` and an `int` slot, `id` and `sku` in a `?string` slot, the amounts and the rate what their readers give, and the four fields not read are null; a bad unit price is the first failure |
| MollieLine.LineFromJson | src/Line.php:167-173 | a non-object is refused with the invalid-argument error before anything is read; a line read has its four unread fields null |
| MollieLine.Line.Assemble | src/Line.php:144-157 | a fresh line whose state is the given one, built by the constructor and four assignments |
| MollieLine.Line.FromJson | src/Line.php:167-173 | fails exactly when the read fails, with its error; otherwise a fresh line whose state is what was read |
| MollieLine.Line.JsonSerialize | src/Line.php:180-198 | the result is the document of the line's twelve builder calls; the line is not modified |
| MollieLine.LineKeysDistinct | src/Line.php:183-195 | the twelve wire keys are pairwise distinct |
| MollieLine.LineSetters | src/Line.php:183-195 | the calls are four required and eight optional ones, on the listed keys and values |
| MollieLine.LineRequiredFirst | src/Line.php:183-186 | the first four members are `description`, `quantity`, `unitPrice` and `totalAmount`, with their values |
| MollieLine.LineRequiredMembers | src/Line.php:183-186 | the four required keys are always present with their values |
| MollieLine.LineOptionalFields | src/Line.php:188-195 | `id`, `type`, `discountAmount`, `sku`, `imageUrl` and `productUrl` are present iff non-null, with their values |
| MollieLine.LineVatRules | src/Line.php:191-192 | `vatRate` is present iff the rate is set and non-zero, as the two-decimal text; `vatAmount` iff set and non-zero, as the amount's serialisation |
| MollieLine.LineKeyOrder | src/Line.php:183-195 | keys never repeat and follow the call order |
| MollieLine.LineFreshDocument | src/Line.php:120-125 | a line with every optional field null serialises to exactly its four required members |
| MollieLine.LineRoundTrip | src/Line.php:142-198 | a line whose VAT fields are set and non-zero, with the other optional fields null, reads back as itself when the rate parses back |
| MollieLines.LineStatesOf | src/Lines.php:52-66 | the states of the lines, one per line, in order |
| MollieLines.Lines.constructor | src/Lines.php:24 | a new collection holds no line |
| MollieLines.Lines.NewLine | src/Lines.php:34-45 | appends exactly one fresh line, built from the arguments with everything else null, and returns it; earlier lines are unchanged |
| MollieLines.Lines.JsonSerialize | src/Lines.php:52-66 | one document per line, element i being line i's serialisation |
| MolliePaymentRequest.PaymentRequest.constructor | src/PaymentRequest.php:191-194 | stores amount and description; every other field is null |
| MolliePaymentRequest.PaymentRequest.SetMethod | src/PaymentRequest.php:211-213 | only the method changes, and `get_method` then returns it |
| MolliePaymentRequest.PaymentRequest.SetDueDate | src/PaymentRequest.php:230-232 | only the due date changes, and `get_due_date` then returns it |
| MolliePaymentRequest.PaymentRequest.SetBillingEmail | src/PaymentRequest.php:251-253 | only the billing email changes, and `get_billing_email` then returns it |
| MolliePaymentRequest.PaymentRequest.SetSequenceType | src/PaymentRequest.php:270-272 | only the sequence type changes, and `get_sequence_type` then returns it |
| MolliePaymentRequest.PaymentRequest.SetMandateId | src/PaymentRequest.php:301-303 | only the mandate id changes, and `get_mandate_id` then returns it |
| MolliePaymentRequest.PaymentRequest.SetMetadata | src/PaymentRequest.php:324-326 | only the metadata changes, and `get_metadata` then returns it |
| MolliePaymentRequest.PaymentRequest.JsonSerialize | src/PaymentRequest.php:334-382 | the result is the document of the request's builder calls, with the due-date call only for a set date; the request is not modified |
| MolliePaymentRequest.PaymentKeysDistinct | src/PaymentRequest.php:338-379 | the sixteen wire keys are pairwise distinct |
| MolliePaymentRequest.PaymentCallsSetters | src/PaymentRequest.php:338-379 | the calls are the two required and fourteen optional ones; an unset due date acts as a null optional call |
| MolliePaymentRequest.PaymentDocumentIsRun | src/PaymentRequest.php:338-381 | the document is the storing calls' pairs in call order, with no repeated key |
| MolliePaymentRequest.PaymentRequiredFirst | src/PaymentRequest.php:338-339 | the first two members are `amount` (serialised) and `description`, even a null description |
| MolliePaymentRequest.PaymentOptionalMembers | src/PaymentRequest.php:349-362 | `redirectUrl`, `webhookUrl`, `locale`, `method`, `metadata`, `sequenceType` and `customerId` are present iff non-null, with their values |
| MolliePaymentRequest.PaymentOptionalMembersTail | src/PaymentRequest.php:359-379 | `mandateId`, `billingEmail`, `cardToken`, `issuer`, `consumerName` and `consumerAccount` are present iff non-null, with their values |
| MolliePaymentRequest.PaymentDueDate | src/PaymentRequest.php:365-369 | `dueDate` is present iff a due date is set, as its `YYYY-MM-DD` text |
| MolliePaymentRequest.PaymentKeyOrder | src/PaymentRequest.php:338-379 | keys follow the call order, with `dueDate` after `billingEmail` and before `cardToken` |
| MolliePaymentRequest.PaymentMetadataOnly | tests/src/PaymentRequestTest.php:108-131 | a request with only amount, description and metadata serialises to exactly those three members |
| MolliePaymentRequest.PaymentDueDateExample | src/PaymentRequest.php:365-369 | a due date of 9 March 2025 is sent as "2025-03-09" |
| Dates.FormatYmdRoundTrip | src/PaymentRequest.php:368 | a valid date of a four-digit year is ten characters `YYYY-MM-DD` that read back as the same date |
| Dates.FormatYmdExample | src/RemoteSerializer.php:64 | 9 March 2025 is written "2025-03-09" |
| ScalarCoercion.StringSlot | src/Line.php:120 | a `string` slot keeps a string, turns an integer into text that parses back as it and a boolean into "1" or ""; null, objects and lists are a type error naming the slot |
| ScalarCoercion.NullableStringSlot | src/Line.php:152-153 | a `?string` slot keeps null and otherwise converts as a `string` slot, failing exactly when that fails |
| ScalarCoercion.IntSlot | src/Line.php:120 | an `int` slot keeps an integer, turns a boolean into 1 or 0 and an integer string into its value; anything else is a type error naming the slot |
| ScalarCoercion.IntTextRoundTrip | src/RefundLine.php:50-54 | an integer's decimal text parses back as the integer, so distinct integers have distinct texts |
| ScalarCoercion.IntThroughString | src/Line.php:120-152 | an integer through a `string` slot and back through an `int` slot is unchanged |
| ScalarCoercion.CoercionExamples | src/Line.php:146-153 | 7 becomes "7", 0 "0", -15 "-15"; "2" and "+2" become 2; true becomes "1" |
| MollieRefundRequest.RefundRequest.constructor | src/RefundRequest.php:54-56 | stores the amount; description and metadata are null |
| MollieRefundRequest.RefundRequest.SetDescription | src/RefundRequest.php:73-75 | only the description changes, and `get_description` then returns it |
| MollieRefundRequest.RefundRequest.SetMetadata | src/RefundRequest.php:96-98 | only the metadata changes, and `get_metadata` then returns it |
| MollieRefundRequest.RefundRequest.JsonSerialize | src/RefundRequest.php:106-114 | the result is the document of the three builder calls; the request is not modified |
| MollieRefundRequest.RefundRequestDocumentExact | src/RefundRequest.php:109-111 | the document is `amount` first, then `description` iff non-null, then `metadata` iff non-null |
| MollieRefundRequest.RefundRequestFreshDocument | src/RefundRequest.php:54-56 | a new request serialises to exactly one member, `amount` |
| MollieRefundLine.RefundLine.constructor | src/RefundLine.php:50-54 | the given id, quantity 0 and the amount EUR "0" |
| MollieRefundLine.RefundLine.SetId | src/RefundLine.php:70-72 | only the id changes, and `get_id` then returns it |
| MollieRefundLine.RefundLine.SetQuantity | src/RefundLine.php:88-90 | only the quantity changes, and `get_quantity` then returns it |
| MollieRefundLine.RefundLine.SetAmount | src/RefundLine.php:106-108 | only the amount changes, and `get_amount` then returns it |
| MollieRefundLine.RefundLine.JsonSerialize | src/RefundLine.php:159-167 | the result is the document of the three builder calls; the line is not modified |
| MollieRefundLine.RefundLineDocumentExact | src/RefundLine.php:162-164 | always exactly `id`, `quantity`, `amount`, in that order, with their values |
| MollieRefundLine.RefundLineFreshDocument | src/RefundLine.php:50-54 | a new line serialises with quantity 0 and the zero euro amount |
| MollieRefundLine.RefundLineFromJsonGuard | src/RefundLine.php:136-139 | a non-object is refused with the invalid-argument error; an object passes on with its members |
| MollieRefundLines.RefundLines.constructor | src/RefundLines.php:24 | a new collection holds no line |
| MollieRefundLines.RefundLines.NewLine | src/RefundLines.php:32-38 | appends exactly one fresh line with the id and the constructor's defaults, and returns it; earlier lines are unchanged |
| MollieRefundLines.RefundLines.JsonSerialize | src/RefundLines.php:45-60 | one document per line, element i being line i's serialisation |
| MollieOrderRefundLinesRequest.OrderRefundLinesRequest.constructor | src/OrderRefundLinesRequest.php:24 | a new request holds no line |
| MollieOrderRefundLinesRequest.OrderRefundLinesRequest.NewLine | src/OrderRefundLinesRequest.php:32-38 | appends exactly one fresh element with the id and returns it; earlier elements are unchanged |
| MollieOrderRefundLinesRequest.OrderRefundLinesRequest.JsonSerialize | src/OrderRefundLinesRequest.php:45-57 | one document per element, element i being element i's serialisation; an empty request gives an empty list |
| MollieRemoteSerializer.Serialize | src/RemoteSerializer.php:26-50 | the loop's result is the object of the ordered assignments of the contributing properties; the item is only read |
| MollieRemoteSerializer.SerializedKeys | src/RemoteSerializer.php:33-47 | a key is present iff some non-null property carries an attribute with that name: nulls and unattributed properties never produce a key |
| MollieRemoteSerializer.SerializedKeyOrder | src/RemoteSerializer.php:33-47 | with distinct attribute names, the keys are exactly the contributing names in declaration order |
| MollieRemoteSerializer.SerializedValue | src/RemoteSerializer.php:43-45 | with distinct attribute names, each contributing property's key holds the resolution of its value |
| MollieRemoteSerializer.ContributingNamesSource | src/RemoteSerializer.php:36-46 | a name is contributed iff some non-null property's attribute carries it |
| MollieRemoteSerializer.GetValuesAt | src/RemoteSerializer.php:67-69 | an array is resolved element by element, keeping length and order |
| MollieRemoteSerializer.GetValueKinds | src/RemoteSerializer.php:55-72 | `get_value` by kind: a serialisable object gives its serialisation, a date its `Y-m-d` text that reads back as the date, a list its elements' resolutions in order, anything else itself |
| MollieRemoteSerializer.GetValueDate | src/RemoteSerializer.php:63-65 | a date is resolved to ten characters `YYYY-MM-DD` that read back as the same date |
| MollieRemoteSerializer.AmountRemoteSerialize | src/Amount.php:83-85 | the attribute path on an amount gives the same object as `jsonSerialize`, and so does `remote_serialize` |
| MollieRemoteSerializer.SerializedSkipsExample | src/RemoteSerializer.php:36-46 | an unattributed property and a null property contribute nothing; a date is written `Y-m-d` |
| MolliePaymentDetails.PaymentDetails.FromJson | src/PaymentDetails.php:25-39 | null gives null; anything else gives a fresh object holding the copy of its members; the method argument does not occur |
| MolliePaymentDetails.ArrayCast | src/PaymentDetails.php:32 | an object casts to its members; a list to its elements in order, each under a name that parses back as its index; a scalar to one member `0`; a list's or a scalar's cast never repeats a key |
| MolliePaymentDetails.Members | src/PaymentDetails.php:32 | a list becomes one member per element, named by its decimal index |
| MolliePaymentDetails.MembersDistinct | src/PaymentDetails.php:32 | the names of a list's members are pairwise distinct |
| MolliePaymentDetails.CopiedKeys | src/PaymentDetails.php:30-36 | the copy has exactly the input's keys: none added, none lost |
| MolliePaymentDetails.CopiedLookup | src/PaymentDetails.php:34-36 | every copied key holds the input's last value for it |
| MolliePaymentDetails.CopiedDistinct | src/PaymentDetails.php:34-36 | the copy never holds a property twice |
| MolliePaymentDetails.CopiedIdentity | src/PaymentDetails.php:34-36 | with distinct input keys the copy equals the input, member for member and in order |
| MolliePaymentDetails.FromJsonExact | src/PaymentDetails.php:25-36 | for any non-null value (an object with distinct member names), the details are exactly the members of its cast, in order |
| MolliePaymentDetails.FromListLookup | src/PaymentDetails.php:32-36 | the details of a list hold element j under the name "j" |
| MollieError.NewError | src/Error.php:47-59 | the message is the title, " - " and the detail; the code is the status; the getters return the arguments unchanged |
| MollieError.MessageParts | src/Error.php:48-52 | the message splits back into title, separator and detail, at fixed positions |
| MollieError.MessageDeterminesDetail | src/Error.php:48-52 | under the same title, two messages are equal iff the details are |

## Left out

- The `Number` library is a parameter of type `Collaborators`, not a model: zero test,
  two-decimal formatting, parsing. So is the money library's zero test. Their
  arithmetic and formatting are not modelled.
- `Amount::to_wp` and the money conversion behind it: foreign library code.
- The object-access helper used by every `from_object` is not part of this model. It is
  taken as a total property lookup, where a missing property reads as null.
- The JSON Schema validation in `RefundLine::from_json`: an external validator that reads
  a schema file. Only the non-object guard is modelled.
- `RefundLine::from_object` is left out. It passes the raw decoded value to the typed
  `set_amount`, which needs an `Amount`, so every call ends in a type error.
- Reflection and attribute instantiation in `RemoteSerializer` are replaced by an
  explicit ordered descriptor list per type. `RemoteApiProperty` is not repeatable, so
  a descriptor carries at most one attribute.
- MollieRemoteSerializer.GetValue: a PHP array is modelled as a list. `array_map` on an
  associative array keeps its keys; that case is not modelled.
- `DateTime` construction, time zones and parsing: a date is a (year, month, day) triple,
  with the `Y-m-d` formatter written out. Years beyond four digits are not covered by the
  round-trip lemmas.
- Dates.FormatYmd: the year is a natural number, so years before year 0, which PHP's `Y`
  writes with a minus sign (such as "-0055"), are not modelled.
- `esc_html` in the address exception message is a WordPress call. Only the failure
  condition and the rejected country are modelled, not the message text.
- ScalarCoercion.IntSlot: PHP also accepts integer strings with leading or trailing
  whitespace, fractional and exponent forms such as "2.0" or "1e3", and leading-numeric
  strings such as "2abc" (with a warning). The model takes all of these as type errors.
- ScalarCoercion.StringSlot: decoded JSON floats are not part of the wire model, so their
  conversion to text is not modelled.
- MollieAmount.FromObject: the same coercion limits apply to `currency` and `value`. A
  float `value` such as 10.5 is not modelled.
- MollieLine.LineFromObject: the same coercion limits apply. A `quantity` of "2.0",
  " 2" or "2abc", which PHP accepts, is a type error here.
- `OrderRefundLineRequest` is not part of this model beyond its identifier. The
  serialisation of its elements is a function parameter of
  `OrderRefundLinesRequest.JsonSerialize`.
- `Chargeback`, `BaseResource`, `Methods` and `ResourceType`: getters, date parsing and
  constant catalogues with no rule to prove.
- The HTTP client and `Refund`.
- MollieLine.LineRoundTrip: `from_object` never reads `type`, `discountAmount`,
  `imageUrl` or `productUrl`, and always sets `vatRate` and `vatAmount`. So the round trip
  holds only for lines whose `type`, `discountAmount`, `imageUrl` and `productUrl` are null and whose VAT fields are set and
  non-zero, and it assumes the rate parses back from its two-decimal text.
- MolliePaymentDetails.PaymentDetails.FromJson: JSON decoding already keeps only the last
  of two equal member names. So for an object the exact-copy lemma asks for distinct
  names; without them only the key set and the last values are stated.
- MollieError.NewError: `detail` is a public property in PHP, so outside code can reassign
  it. The model is an immutable value. The message is computed once in the constructor
  either way.
- `PaymentRequest` fields without accessors (redirect and webhook URLs, locale, issuer,
  customer id, card token, consumer name and account) are public in PHP. They are plain
  class fields here, assigned directly, and have no getter or setter members.
- Integer width: quantities and status codes are unbounded integers. PHP's 64-bit integer
  limits are not modelled.
