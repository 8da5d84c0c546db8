/**
 * The details of a payment: a bag of dynamic properties copied one by one
 * from the decoded JSON value. Which properties exist depends on the payment
 * method, but the copy itself does not look at the method.
 */
module MolliePaymentDetails {
  import opened Wrappers
  import opened Json
  import opened ScalarCoercion

  /** The members of a list as `(array)` gives them: element `j` under the key `j`, which becomes the property name "j". */
  function Members(items: seq<Wire>): (d: Doc)
    ensures |d| == |items|
    ensures forall j :: 0 <= j < |items| ==> d[j] == (IntText(j), items[j])
  {
    if |items| == 0 then [] else Members(items[..|items| - 1]) + [(IntText(|items| - 1), items[|items| - 1])]
  }

  /**
   * `(array) $json` on a non-null value: an object gives its members, a list
   * its elements in order under their indices, a scalar one member `0`. A PHP
   * array never holds a key twice, and neither does the cast of a list or a
   * scalar; an object's members are passed through as decoded.
   */
  function ArrayCast(json: Wire): (d: Doc)
    ensures json.Obj? ==> d == json.fields
    ensures json.List? ==> |d| == |json.items| && forall j :: 0 <= j < |d| ==> d[j].1 == json.items[j] && ParseInt(d[j].0) == Some(j)
    ensures !json.Obj? && !json.List? && json != Null ==> d == [("0", json)]
    ensures !json.Obj? ==> NoDuplicates(Keys(d))
  {
    match json
    case Null => []
    case Obj(fields) => fields
    case List(items) =>
      var d := Members(items);
      MembersDistinct(items);
      assert forall j :: 0 <= j < |d| ==> ParseInt(d[j].0) == Some(j) by {
        forall j | 0 <= j < |d| {
          IntTextRoundTrip(j);
        }
      }
      d
    case _ => [("0", json)]
  }

  /** The properties after the `foreach` has assigned the first members, in order: `$details->{$key} = $value`. */
  function Copied(d: Doc): Doc
  {
    if |d| == 0 then [] else Put(Copied(d[..|d| - 1]), d[|d| - 1].0, d[|d| - 1].1)
  }

  /** The value of the LAST member named `k`, if any: the one a later assignment leaves behind. */
  function LastLookup(d: Doc, k: string): Option<Wire>
  {
    if |d| == 0 then None
    else if d[|d| - 1].0 == k then Some(d[|d| - 1].1)
    else LastLookup(d[..|d| - 1], k)
  }

  class PaymentDetails {
    /** The dynamic properties, in the order they were first assigned. */
    var properties: Doc

    /** `new PaymentDetails()`: no property yet. */
    constructor ()
      ensures properties == []
    {
      properties := [];
    }

    /**
     * `from_json`: null gives null; any other value gives a fresh object
     * holding the copy of its members. The method argument is not read.
     */
    static method FromJson(paymentMethod: string, json: Wire) returns (details: Option<PaymentDetails>)
      ensures details.None? <==> json == Null
      ensures details.Some? ==> fresh(details.value) && details.value.properties == Copied(ArrayCast(json))
    {
      if json == Null {
        return None;
      }
      var d := new PaymentDetails();
      var data := ArrayCast(json);
      var i := 0;
      while i < |data|
        invariant 0 <= i <= |data|
        invariant d.properties == Copied(data[..i])
      {
        assert data[..i + 1][..i] == data[..i];
        d.properties := Put(d.properties, data[i].0, data[i].1);
        i := i + 1;
      }
      assert data[..i] == data;
      details := Some(d);
    }
  }

  // ---------------------------------------------------------------- lemmas

  /** Exactly the input's keys are copied: nothing is added and nothing is lost. */
  lemma {:induction false} CopiedKeys(d: Doc, k: string)
    ensures HasKey(Copied(d), k) <==> HasKey(d, k)
  {
    if |d| > 0 {
      var init := d[..|d| - 1];
      CopiedKeys(init, k);
      PutLookup(Copied(init), d[|d| - 1].0, d[|d| - 1].1, k);
      LookupAbsent(Copied(d), k);
      LookupAbsent(Copied(init), k);
      assert d == init + [d[|d| - 1]];
      KeysAppend(init, [d[|d| - 1]]);
      assert Keys(d) == Keys(init) + [d[|d| - 1].0];
      assert HasKey(d, k) <==> HasKey(init, k) || k == d[|d| - 1].0;
    }
  }

  /** Each copied key holds the input's last value for it. */
  lemma {:induction false} CopiedLookup(d: Doc, k: string)
    ensures Lookup(Copied(d), k) == LastLookup(d, k)
  {
    if |d| > 0 {
      CopiedLookup(d[..|d| - 1], k);
      PutLookup(Copied(d[..|d| - 1]), d[|d| - 1].0, d[|d| - 1].1, k);
    }
  }

  /** The copy never holds a property twice. */
  lemma {:induction false} CopiedDistinct(d: Doc)
    ensures NoDuplicates(Keys(Copied(d)))
  {
    if |d| > 0 {
      CopiedDistinct(d[..|d| - 1]);
      PutKeys(Copied(d[..|d| - 1]), d[|d| - 1].0, d[|d| - 1].1);
    }
  }

  /** A decoded object has distinct member names; its copy is then the object itself, member for member and in order. */
  lemma {:induction false} CopiedIdentity(d: Doc)
    requires NoDuplicates(Keys(d))
    ensures Copied(d) == d
  {
    if |d| > 0 {
      var init := d[..|d| - 1];
      var ks := Keys(d);
      NoDuplicatesPrefix(ks);
      assert ks[..|ks| - 1] == Keys(init);
      CopiedIdentity(init);
      PutFresh(init, d[|d| - 1].0, d[|d| - 1].1);
      assert init + [d[|d| - 1]] == d;
    }
  }

  /** The list's members have distinct names, since each index's text reads back as that index. */
  lemma MembersDistinct(items: seq<Wire>)
    ensures NoDuplicates(Keys(Members(items)))
  {
    var ks := Keys(Members(items));
    forall i, j | 0 <= i < j < |ks|
      ensures ks[i] != ks[j]
    {
      IntTextRoundTrip(i);
      IntTextRoundTrip(j);
    }
  }

  /**
   * `from_json` on any non-null value whose decoded object, if it is one, has
   * distinct member names: the details are exactly the members of
   * `(array) $json`, whatever the payment method.
   */
  lemma FromJsonExact(json: Wire)
    requires json != Null
    requires json.Obj? ==> NoDuplicates(Keys(json.fields))
    ensures Copied(ArrayCast(json)) == ArrayCast(json)
  {
    CopiedIdentity(ArrayCast(json));
  }

  /** `from_json` on a list: property "j" holds element j. */
  lemma FromListLookup(items: seq<Wire>, j: nat)
    requires j < |items|
    ensures Lookup(Copied(ArrayCast(List(items))), IntText(j)) == Some(items[j])
  {
    var d := ArrayCast(List(items));
    FromJsonExact(List(items));
    LookupAt(d, j);
  }
}
