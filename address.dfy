/**
 * A postal address as the gateway expects it in billing and shipping data:
 * twelve nullable strings, a country guard in the constructor, and a
 * serialisation that forces `email` into the document when the postal part is
 * incomplete.
 */
module MollieAddress {
  import opened Wrappers
  import opened Json
  import opened MollieObjectBuilder

  /** The fields of an address, as a value. */
  datatype AddressState = AddressState(
    organizationName: Option<string>,
    title: Option<string>,
    givenName: Option<string>,
    familyName: Option<string>,
    email: Option<string>,
    phone: Option<string>,
    streetAndNumber: Option<string>,
    streetAdditional: Option<string>,
    postalCode: Option<string>,
    city: Option<string>,
    region: Option<string>,
    country: Option<string>)

  /** The wire keys in the order the serialisation visits them. */
  const AddressKeys: seq<string> := [
    "organizationName", "title", "givenName", "familyName", "email", "phone",
    "streetAndNumber", "streetAdditional", "postalCode", "city", "region", "country"]

  /** Bytes of a character in UTF-8, the unit of PHP's `strlen`. */
  function CharBytes(c: char): nat
  {
    if c as int < 0x80 then 1
    else if c as int < 0x800 then 2
    else if c as int < 0x10000 then 3
    else 4
  }

  /** Bytes of a string in UTF-8. */
  function Utf8Length(s: string): nat
  {
    if |s| == 0 then 0 else Utf8Length(s[..|s| - 1]) + CharBytes(s[|s| - 1])
  }

  /** The constructor's guard: no country, or one of exactly two bytes. */
  predicate CountryAccepted(country: Option<string>)
  {
    country.None? || Utf8Length(country.value) == 2
  }

  /** Some part of the postal address (street, postal code, city, country) is missing. */
  predicate PostalIncomplete(st: AddressState)
  {
    st.streetAndNumber.None? || st.postalCode.None? || st.city.None? || st.country.None?
  }

  /** The log of the twelve `set_optional` calls, in call order. */
  function AddressOptionalCalls(st: AddressState): Calls
  {
    Start
      .SetOptional("organizationName", OptStr(st.organizationName))
      .SetOptional("title", OptStr(st.title))
      .SetOptional("givenName", OptStr(st.givenName))
      .SetOptional("familyName", OptStr(st.familyName))
      .SetOptional("email", OptStr(st.email))
      .SetOptional("phone", OptStr(st.phone))
      .SetOptional("streetAndNumber", OptStr(st.streetAndNumber))
      .SetOptional("streetAdditional", OptStr(st.streetAdditional))
      .SetOptional("postalCode", OptStr(st.postalCode))
      .SetOptional("city", OptStr(st.city))
      .SetOptional("region", OptStr(st.region))
      .SetOptional("country", OptStr(st.country))
  }

  /** The log of `jsonSerialize`: the twelve calls, then `set_required('email', ...)` when the postal part is incomplete. */
  function AddressCalls(st: AddressState): Calls
  {
    if PostalIncomplete(st) then AddressOptionalCalls(st).SetRequired("email", OptStr(st.email))
    else AddressOptionalCalls(st)
  }

  /** The members `jsonSerialize` produces. */
  function AddressDocument(st: AddressState): Doc
  {
    Replay(AddressCalls(st))
  }

  /** The members the twelve optional calls alone produce. */
  function AddressOptionalDocument(st: AddressState): Doc
  {
    Replay(AddressOptionalCalls(st))
  }

  class Address {
    var organizationName: Option<string>
    var title: Option<string>
    var givenName: Option<string>
    var familyName: Option<string>
    var email: Option<string>
    var phone: Option<string>
    var streetAndNumber: Option<string>
    var streetAdditional: Option<string>
    var postalCode: Option<string>
    var city: Option<string>
    var region: Option<string>
    var country: Option<string>

    function State(): AddressState
      reads this
    {
      AddressState(organizationName, title, givenName, familyName, email, phone,
                   streetAndNumber, streetAdditional, postalCode, city, region, country)
    }

    /**
     * The assignments of the constructor, once its guard has passed; Create
     * below is the constructor as a caller sees it, guard included.
     */
    constructor (givenName: Option<string>, familyName: Option<string>, email: Option<string>,
                 streetAndNumber: Option<string>, city: Option<string>, country: Option<string>)
      requires CountryAccepted(country)
      ensures State() == AddressState(None, None, givenName, familyName, email, None,
                                      streetAndNumber, None, None, city, None, country)
    {
      this.organizationName := None;
      this.title := None;
      this.givenName := givenName;
      this.familyName := familyName;
      this.email := email;
      this.phone := None;
      this.streetAndNumber := streetAndNumber;
      this.streetAdditional := None;
      this.postalCode := None;
      this.city := city;
      this.region := None;
      this.country := country;
    }

    /**
     * `new Address(...)`: a country that is given and is not two bytes long is
     * refused; otherwise the six arguments are stored and every other field is null.
     */
    static method Create(givenName: Option<string>, familyName: Option<string>, email: Option<string>,
                         streetAndNumber: Option<string>, city: Option<string>, country: Option<string>)
      returns (r: Result<Address, Failure>)
      ensures r.Failure? <==> !CountryAccepted(country)
      ensures r.Failure? ==> r.error == InvalidCountry(country.value)
      ensures r.Success? ==> fresh(r.value) && r.value.State() == AddressState(
        None, None, givenName, familyName, email, None, streetAndNumber, None, None, city, None, country)
    {
      if country.Some? && Utf8Length(country.value) != 2 {
        return Failure(InvalidCountry(country.value));
      }
      var a := new Address(givenName, familyName, email, streetAndNumber, city, country);
      return Success(a);
    }

    /** `jsonSerialize`: drives a fresh builder through the calls of AddressCalls; the address is not changed. */
    method JsonSerialize() returns (doc: Wire)
      ensures doc == Obj(AddressDocument(State()))
    {
      var st := State();
      var b := new ObjectBuilder();
      b.SetOptional("organizationName", OptStr(st.organizationName));
      b.SetOptional("title", OptStr(st.title));
      b.SetOptional("givenName", OptStr(st.givenName));
      b.SetOptional("familyName", OptStr(st.familyName));
      b.SetOptional("email", OptStr(st.email));
      b.SetOptional("phone", OptStr(st.phone));
      b.SetOptional("streetAndNumber", OptStr(st.streetAndNumber));
      b.SetOptional("streetAdditional", OptStr(st.streetAdditional));
      b.SetOptional("postalCode", OptStr(st.postalCode));
      b.SetOptional("city", OptStr(st.city));
      b.SetOptional("region", OptStr(st.region));
      b.SetOptional("country", OptStr(st.country));
      if st.streetAndNumber.None? || st.postalCode.None? || st.city.None? || st.country.None? {
        b.SetRequired("email", OptStr(st.email));
      }
      doc := b.JsonSerialize();
    }
  }

  // ---------------------------------------------------------------- lemmas

  /** No wire key of an address is used twice. */
  lemma AddressKeysDistinct()
    ensures NoDuplicates(AddressKeys)
  {
  }

  /** The twelve calls as a sequence, and their keys. */
  lemma AddressOptionalSetters(st: AddressState)
    ensures AddressOptionalCalls(st).Setters() == [ Setter(Optional, "organizationName", OptStr(st.organizationName)),
        Setter(Optional, "title", OptStr(st.title)),
        Setter(Optional, "givenName", OptStr(st.givenName)),
        Setter(Optional, "familyName", OptStr(st.familyName)),
        Setter(Optional, "email", OptStr(st.email)),
        Setter(Optional, "phone", OptStr(st.phone)),
        Setter(Optional, "streetAndNumber", OptStr(st.streetAndNumber)),
        Setter(Optional, "streetAdditional", OptStr(st.streetAdditional)),
        Setter(Optional, "postalCode", OptStr(st.postalCode)),
        Setter(Optional, "city", OptStr(st.city)),
        Setter(Optional, "region", OptStr(st.region)),
        Setter(Optional, "country", OptStr(st.country)) ]
    ensures SetterKeys(AddressOptionalCalls(st).Setters()) == AddressKeys
  {
    SettersSnoc();
  }

  /**
   * The document is the twelve calls' document, with `email` assigned once more
   * (required, possibly null) when the postal part is incomplete.
   */
  lemma AddressDocumentShape(st: AddressState)
    ensures AddressOptionalDocument(st) == Run(AddressOptionalCalls(st).Setters())
    ensures AddressDocument(st) == if PostalIncomplete(st)
      then Put(AddressOptionalDocument(st), "email", OptStr(st.email))
      else AddressOptionalDocument(st)
  {
    ReplayIsRun(AddressOptionalCalls(st));
  }

  /** In the twelve calls' document, every field appears as its key iff it is non-null, with its value. */
  lemma AddressOptionalMembers(st: AddressState)
    ensures var d := AddressOptionalDocument(st);
      && OptionalMember(d, "organizationName", OptStr(st.organizationName))
      && OptionalMember(d, "title", OptStr(st.title))
      && OptionalMember(d, "givenName", OptStr(st.givenName))
      && OptionalMember(d, "familyName", OptStr(st.familyName))
      && OptionalMember(d, "phone", OptStr(st.phone))
      && OptionalMember(d, "streetAndNumber", OptStr(st.streetAndNumber))
      && OptionalMember(d, "streetAdditional", OptStr(st.streetAdditional))
      && OptionalMember(d, "postalCode", OptStr(st.postalCode))
      && OptionalMember(d, "city", OptStr(st.city))
      && OptionalMember(d, "region", OptStr(st.region))
      && OptionalMember(d, "country", OptStr(st.country))
      && OptionalMember(d, "email", OptStr(st.email))
  {
    var base := AddressOptionalCalls(st).Setters();
    AddressOptionalSetters(st);
    AddressKeysDistinct();
    AddressDocumentShape(st);
    MemberAt(base, 0);
    MemberAt(base, 1);
    MemberAt(base, 2);
    MemberAt(base, 3);
    MemberAt(base, 4);
    MemberAt(base, 5);
    MemberAt(base, 6);
    MemberAt(base, 7);
    MemberAt(base, 8);
    MemberAt(base, 9);
    MemberAt(base, 10);
    MemberAt(base, 11);
  }

  /** Every field other than `email` appears as its key iff it is non-null, with its value. */
  lemma AddressOptionalFields(st: AddressState)
    ensures var d := AddressDocument(st);
      && OptionalMember(d, "organizationName", OptStr(st.organizationName))
      && OptionalMember(d, "title", OptStr(st.title))
      && OptionalMember(d, "givenName", OptStr(st.givenName))
      && OptionalMember(d, "familyName", OptStr(st.familyName))
      && OptionalMember(d, "phone", OptStr(st.phone))
      && OptionalMember(d, "streetAndNumber", OptStr(st.streetAndNumber))
      && OptionalMember(d, "streetAdditional", OptStr(st.streetAdditional))
      && OptionalMember(d, "postalCode", OptStr(st.postalCode))
      && OptionalMember(d, "city", OptStr(st.city))
      && OptionalMember(d, "region", OptStr(st.region))
      && OptionalMember(d, "country", OptStr(st.country))
  {
    var d, v := AddressOptionalDocument(st), OptStr(st.email);
    AddressOptionalMembers(st);
    AddressDocumentShape(st);
    if PostalIncomplete(st) {
      PutKeepsMember(d, "email", v, "organizationName", OptStr(st.organizationName));
      PutKeepsMember(d, "email", v, "title", OptStr(st.title));
      PutKeepsMember(d, "email", v, "givenName", OptStr(st.givenName));
      PutKeepsMember(d, "email", v, "familyName", OptStr(st.familyName));
      PutKeepsMember(d, "email", v, "phone", OptStr(st.phone));
      PutKeepsMember(d, "email", v, "streetAndNumber", OptStr(st.streetAndNumber));
      PutKeepsMember(d, "email", v, "streetAdditional", OptStr(st.streetAdditional));
      PutKeepsMember(d, "email", v, "postalCode", OptStr(st.postalCode));
      PutKeepsMember(d, "email", v, "city", OptStr(st.city));
      PutKeepsMember(d, "email", v, "region", OptStr(st.region));
      PutKeepsMember(d, "email", v, "country", OptStr(st.country));
    }
  }

  /**
   * The completeness rule: with the postal part incomplete `email` is always
   * present, null included; a forced non-null email is the one already stored,
   * in its place, while a forced null email is appended after everything else.
   * With the postal part complete, `email` is an ordinary optional member.
   */
  lemma AddressEmailRule(st: AddressState)
    ensures var d := AddressDocument(st);
      && (PostalIncomplete(st) ==> HasKey(d, "email") && RequiredMember(d, "email", OptStr(st.email)))
      && (!PostalIncomplete(st) ==> OptionalMember(d, "email", OptStr(st.email)))
      && (PostalIncomplete(st) && st.email.Some? ==> d == AddressOptionalDocument(st))
      && (PostalIncomplete(st) && st.email.None? ==> d == AddressOptionalDocument(st) + [("email", Null)])
  {
    var d, v := AddressOptionalDocument(st), OptStr(st.email);
    AddressOptionalMembers(st);
    AddressDocumentShape(st);
    if PostalIncomplete(st) {
      ApplyRequired(d, "email", v);
      if st.email.Some? {
        RunKeysUnique(AddressOptionalCalls(st).Setters());
        PutSame(d, "email", v);
      } else {
        PutFresh(d, "email", v);
      }
    }
  }

  /**
   * Key order: the twelve calls emit their keys in AddressKeys order, each once;
   * the whole document keeps that order unless a null email is forced, which
   * then comes last.
   */
  lemma AddressKeyOrder(st: AddressState)
    ensures NoDuplicates(Keys(AddressDocument(st)))
    ensures Subsequence(Keys(AddressOptionalDocument(st)), AddressKeys)
    ensures !(PostalIncomplete(st) && st.email.None?) ==> Subsequence(Keys(AddressDocument(st)), AddressKeys)
    ensures PostalIncomplete(st) && st.email.None? ==>
      Keys(AddressDocument(st)) == Keys(AddressOptionalDocument(st)) + ["email"]
  {
    var base := AddressOptionalCalls(st).Setters();
    AddressOptionalSetters(st);
    AddressKeysDistinct();
    AddressDocumentShape(st);
    RunKeysInCallOrder(base);
    AddressEmailRule(st);
    if PostalIncomplete(st) {
      PutKeys(Run(base), "email", OptStr(st.email));
      if st.email.None? {
        KeysAppend(AddressOptionalDocument(st), [("email", Null)]);
      }
    }
  }

  /**
   * The billing address of the order-request test: built with six arguments,
   * then organisation, postal code, phone and region assigned. Title and
   * street details stay unset and so stay out of the document; the other ten
   * fields are there with their values (in AddressKeys order, by AddressKeyOrder).
   */
  lemma AddressOrderRequestExample()
    ensures var d := AddressDocument(AddressState(
      Some("Pronamic"), None, Some("Remco"), Some("Tolsma"), Some("info@pronamic.nl"), Some("085 40 11 580"),
      Some("Burgemeester Wuiteweg 39b"), None, Some("9203 KA"), Some("Drachten"), Some("Friesland"), Some("NL")));
      && !HasKey(d, "title") && !HasKey(d, "streetAdditional")
      && Lookup(d, "organizationName") == Some(Str("Pronamic"))
      && Lookup(d, "givenName") == Some(Str("Remco"))
      && Lookup(d, "familyName") == Some(Str("Tolsma"))
      && Lookup(d, "email") == Some(Str("info@pronamic.nl"))
      && Lookup(d, "phone") == Some(Str("085 40 11 580"))
      && Lookup(d, "streetAndNumber") == Some(Str("Burgemeester Wuiteweg 39b"))
      && Lookup(d, "postalCode") == Some(Str("9203 KA"))
      && Lookup(d, "city") == Some(Str("Drachten"))
      && Lookup(d, "region") == Some(Str("Friesland"))
      && Lookup(d, "country") == Some(Str("NL"))
  {
    var st := AddressState(
      Some("Pronamic"), None, Some("Remco"), Some("Tolsma"), Some("info@pronamic.nl"), Some("085 40 11 580"),
      Some("Burgemeester Wuiteweg 39b"), None, Some("9203 KA"), Some("Drachten"), Some("Friesland"), Some("NL"));
    AddressOptionalFields(st);
    AddressEmailRule(st);
  }

  /** Only a given name: the postal part is incomplete, so a null `email` is forced in after it. */
  lemma AddressGivenNameOnlyExample()
    ensures AddressDocument(AddressState(None, None, Some("Remco"), None, None, None, None, None, None, None, None, None))
      == [("givenName", Str("Remco")), ("email", Null)]
  {
    var st := AddressState(None, None, Some("Remco"), None, None, None, None, None, None, None, None, None);
    var base := AddressOptionalCalls(st).Setters();
    AddressOptionalSetters(st);
    AddressKeysDistinct();
    AddressEmailRule(st);
    AddressDocumentShape(st);
    RunIsEmitted(base);
    SettersSnoc();
    EmittedSnocAll();
  }

  /** Every character of the string is in the ASCII range. */
  predicate Ascii(s: string)
  {
    forall i :: 0 <= i < |s| ==> s[i] as int < 0x80
  }

  /** A character takes one to four bytes, so a string has at least as many bytes as characters. */
  lemma {:induction false} Utf8LengthBounds(s: string)
    ensures |s| <= Utf8Length(s) <= 4 * |s|
    ensures Ascii(s) ==> Utf8Length(s) == |s|
  {
    if |s| > 0 {
      var p := s[..|s| - 1];
      Utf8LengthBounds(p);
      assert Ascii(s) ==> Ascii(p) by {
        if Ascii(s) {
          forall i | 0 <= i < |p| ensures p[i] as int < 0x80 {
            assert p[i] == s[i];
          }
        }
      }
    }
  }

  /**
   * The constructor's guard counts bytes: an accepted country has one or two
   * characters, and for ASCII text the guard is exactly "two characters".
   */
  lemma CountryGuard(country: string)
    ensures CountryAccepted(Some(country)) ==> 1 <= |country| <= 2
    ensures Ascii(country) ==> (CountryAccepted(Some(country)) <==> |country| == 2)
  {
    Utf8LengthBounds(country);
  }

  /**
   * "NL" and a missing country pass; "NLD", "N" and "" are refused. Because
   * the length is in bytes, one two-byte character such as "é" passes, while
   * two such characters are refused.
   */
  lemma CountryGuardExamples()
    ensures CountryAccepted(None) && CountryAccepted(Some("NL"))
    ensures !CountryAccepted(Some("NLD")) && !CountryAccepted(Some("N")) && !CountryAccepted(Some(""))
    ensures CountryAccepted(Some("\U{00E9}"))
    ensures !CountryAccepted(Some("\U{00C5}\U{00C5}"))
  {
    CountryGuard("NLD");
  }
}
