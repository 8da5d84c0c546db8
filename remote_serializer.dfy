/**
 * The attribute-driven serialiser. An object is given as the ordered list of
 * its properties, each with its value and the wire name of its
 * `RemoteApiProperty` attribute, if it has one. Properties are visited in
 * declaration order; a null value or a missing attribute contributes nothing;
 * every other value is resolved by GetValue and stored under the attribute's
 * name.
 */
module MollieRemoteSerializer {
  import opened Wrappers
  import opened Json
  import opened Dates
  import opened MollieAmount

  /** A PHP value as `get_value` tells its kinds apart. */
  datatype Value =
    | Plain(w: Wire)                 // anything else, passed through; `Plain(Null)` is PHP null
    | Serializable(remote: Wire)     // an object implementing RemoteSerializable, by what its `remote_serialize` returns
    | DateValue(date: Date)          // a DateTimeInterface, by its calendar date
    | ArrayValue(items: seq<Value>)  // a list

  /**
   * One property of the serialised object. `RemoteApiProperty` is not declared
   * repeatable, so a property carries at most one such attribute.
   */
  datatype PropertyDescriptor = PropertyDescriptor(value: Value, attribute: Option<string>)

  /** `get_value`: the wire form of one value. */
  function GetValue(v: Value): Wire
    decreases v, 1
  {
    match v
    case Serializable(remote) => remote
    case DateValue(date) => Str(FormatYmd(date))
    case ArrayValue(items) => List(GetValues(items))
    case Plain(w) => w
  }

  /** `array_map` of `get_value` over a list. */
  function GetValues(items: seq<Value>): seq<Wire>
    decreases items, 0
  {
    if |items| == 0 then [] else GetValues(items[..|items| - 1]) + [GetValue(items[|items| - 1])]
  }

  /** A property that produces a member: non-null and carrying the attribute. */
  predicate Contributes(p: PropertyDescriptor)
  {
    p.value != Plain(Null) && p.attribute.Some?
  }

  /** The loop of `serialize` over the first properties: each contributing one assigns its name. */
  function Serialized(props: seq<PropertyDescriptor>): Doc
  {
    if |props| == 0 then []
    else
      var p := props[|props| - 1];
      var d := Serialized(props[..|props| - 1]);
      if Contributes(p) then Put(d, p.attribute.value, GetValue(p.value)) else d
  }

  /** The wire names of the contributing properties, in declaration order. */
  function ContributingNames(props: seq<PropertyDescriptor>): seq<string>
  {
    if |props| == 0 then []
    else
      var p := props[|props| - 1];
      ContributingNames(props[..|props| - 1]) + (if Contributes(p) then [p.attribute.value] else [])
  }

  /** `serialize`: visits the properties in order and assigns the contributing ones; the item is only read. */
  method Serialize(props: seq<PropertyDescriptor>) returns (doc: Wire)
    ensures doc == Obj(Serialized(props))
  {
    var data: Doc := [];
    var i := 0;
    while i < |props|
      invariant 0 <= i <= |props|
      invariant data == Serialized(props[..i])
    {
      var p := props[i];
      assert props[..i + 1][..i] == props[..i];
      if p.value != Plain(Null) {
        match p.attribute
        case Some(name) =>
          data := Put(data, name, GetValue(p.value));
        case None =>
      }
      i := i + 1;
    }
    assert props[..i] == props;
    doc := Obj(data);
  }

  /** The descriptors of Amount: `currency` and `value`, both attributed under their own names. */
  function AmountProperties(a: Amount): seq<PropertyDescriptor>
  {
    [PropertyDescriptor(Plain(Str(a.currency)), Some("currency")),
     PropertyDescriptor(Plain(Str(a.value)), Some("value"))]
  }

  // ---------------------------------------------------------------- lemmas

  /** Assigning one key adds that key and keeps the others. */
  lemma PutHasKey(d: Doc, k: string, v: Wire, k': string)
    ensures HasKey(Put(d, k, v), k') <==> k' == k || HasKey(d, k')
  {
    PutLookup(d, k, v, k');
    LookupAbsent(d, k');
    LookupAbsent(Put(d, k, v), k');
  }

  /** A name is among the contributing names iff some contributing property carries it. */
  lemma {:induction false} ContributingNamesSource(props: seq<PropertyDescriptor>, k: string)
    ensures k in ContributingNames(props) <==>
      exists i :: 0 <= i < |props| && Contributes(props[i]) && props[i].attribute == Some(k)
  {
    if |props| > 0 {
      var init, p := props[..|props| - 1], props[|props| - 1];
      ContributingNamesSource(init, k);
      if k in ContributingNames(props) {
        if k !in ContributingNames(init) {
          assert Contributes(props[|props| - 1]) && props[|props| - 1].attribute == Some(k);
        } else {
          var i :| 0 <= i < |init| && Contributes(init[i]) && init[i].attribute == Some(k);
          assert props[i] == init[i];
        }
      } else {
        forall i | 0 <= i < |props| && Contributes(props[i])
          ensures props[i].attribute != Some(k)
        {
          if i < |init| {
            assert props[i] == init[i];
          }
        }
      }
    }
  }

  /**
   * A key is present iff some non-null property carries an attribute with
   * that name: null properties and properties without the attribute never
   * produce a key, and the key is always the attribute's name.
   */
  lemma {:induction false} SerializedKeys(props: seq<PropertyDescriptor>, k: string)
    ensures HasKey(Serialized(props), k) <==> k in ContributingNames(props)
    ensures HasKey(Serialized(props), k) <==>
      exists i :: 0 <= i < |props| && Contributes(props[i]) && props[i].attribute == Some(k)
  {
    if |props| > 0 {
      var init, p := props[..|props| - 1], props[|props| - 1];
      SerializedKeys(init, k);
      if Contributes(p) {
        PutHasKey(Serialized(init), p.attribute.value, GetValue(p.value), k);
      }
    }
    ContributingNamesSource(props, k);
  }

  /** With distinct names, the keys are exactly the contributing names, in declaration order. */
  lemma {:induction false} SerializedKeyOrder(props: seq<PropertyDescriptor>)
    requires NoDuplicates(ContributingNames(props))
    ensures Keys(Serialized(props)) == ContributingNames(props)
  {
    if |props| > 0 {
      var init, p := props[..|props| - 1], props[|props| - 1];
      var names := ContributingNames(props);
      if Contributes(p) {
        assert names == ContributingNames(init) + [p.attribute.value];
        NoDuplicatesPrefix(names);
        assert names[..|names| - 1] == ContributingNames(init);
        SerializedKeyOrder(init);
        PutFresh(Serialized(init), p.attribute.value, GetValue(p.value));
        KeysAppend(Serialized(init), [(p.attribute.value, GetValue(p.value))]);
      } else {
        assert names == ContributingNames(init);
        SerializedKeyOrder(init);
      }
    }
  }

  /** With distinct names, each contributing property's key holds the resolution of its value. */
  lemma {:induction false} SerializedValue(props: seq<PropertyDescriptor>, i: int)
    requires NoDuplicates(ContributingNames(props))
    requires 0 <= i < |props| && Contributes(props[i])
    ensures Lookup(Serialized(props), props[i].attribute.value) == Some(GetValue(props[i].value))
  {
    var init, p := props[..|props| - 1], props[|props| - 1];
    var k := props[i].attribute.value;
    if Contributes(p) {
      PutLookup(Serialized(init), p.attribute.value, GetValue(p.value), k);
      var names := ContributingNames(props);
      assert names == ContributingNames(init) + [p.attribute.value];
      NoDuplicatesPrefix(names);
      assert names[..|names| - 1] == ContributingNames(init);
      if i < |init| {
        assert init[i] == props[i];
        ContributingNamesSource(init, k);
        assert k != p.attribute.value;
        SerializedValue(init, i);
      }
    } else {
      assert ContributingNames(props) == ContributingNames(init);
      assert init[i] == props[i];
      SerializedValue(init, i);
    }
  }

  /** `get_value` maps a list element-wise, keeping its length and order. */
  lemma {:induction false} GetValuesAt(items: seq<Value>)
    ensures |GetValues(items)| == |items|
    ensures forall j :: 0 <= j < |items| ==> GetValues(items)[j] == GetValue(items[j])
  {
    if |items| > 0 {
      GetValuesAt(items[..|items| - 1]);
    }
  }

  /** A date becomes ten characters `YYYY-MM-DD` that read back as the same date. */
  lemma GetValueDate(d: Date)
    requires ValidDate(d) && d.year <= 9999
    ensures GetValue(DateValue(d)).Str?
    ensures |GetValue(DateValue(d)).s| == 10
    ensures ParseYmd(GetValue(DateValue(d)).s) == Some(d)
  {
    FormatYmdRoundTrip(d);
  }

  /**
   * `get_value` by kind: a serialisable object gives what it serialises to,
   * a date its `Y-m-d` text that reads back as the date, a list the list of
   * its elements' resolutions, and anything else itself.
   */
  lemma GetValueKinds(v: Value)
    ensures v.Serializable? ==> GetValue(v) == v.remote
    ensures v.Plain? ==> GetValue(v) == v.w
    ensures v.DateValue? && ValidDate(v.date) && v.date.year <= 9999 ==>
              (GetValue(v).Str? && |GetValue(v).s| == 10 && ParseYmd(GetValue(v).s) == Some(v.date))
    ensures v.ArrayValue? ==>
              (GetValue(v).List? && |GetValue(v).items| == |v.items| &&
               forall j :: 0 <= j < |v.items| ==> GetValue(v).items[j] == GetValue(v.items[j]))
  {
    match v
    case DateValue(d) =>
      if ValidDate(d) && d.year <= 9999 {
        GetValueDate(d);
      }
    case ArrayValue(items) => GetValuesAt(items);
    case _ =>
  }

  /** On an Amount the attribute path gives `{currency, value}`: the same members as `jsonSerialize`. */
  lemma AmountRemoteSerialize(a: Amount)
    ensures Obj(Serialized(AmountProperties(a))) == MollieAmount.JsonSerialize(a)
    ensures GetValue(Serializable(RemoteSerialize(a))) == MollieAmount.JsonSerialize(a)
  {
    var props := AmountProperties(a);
    var d1 := [("currency", Str(a.currency))];
    assert props[..1][..0] == [];
    assert Serialized(props[..1]) == d1;
    assert props[..|props| - 1] == props[..1];
    assert Serialized(props) == Put(d1, "value", Str(a.value));
    assert |"currency"| != |"value"|;
    assert Keys(d1) == ["currency"];
    PutFresh(d1, "value", Str(a.value));
  }

  /** Example: a property without the attribute and a null property contribute nothing. */
  lemma SerializedSkipsExample()
    ensures Serialized([PropertyDescriptor(Plain(Str("secret")), None),
                        PropertyDescriptor(Plain(Null), Some("description")),
                        PropertyDescriptor(DateValue(Date(2025, 3, 9)), Some("dueDate"))])
      == [("dueDate", Str("2025-03-09"))]
  {
    var props := [PropertyDescriptor(Plain(Str("secret")), None),
                  PropertyDescriptor(Plain(Null), Some("description")),
                  PropertyDescriptor(DateValue(Date(2025, 3, 9)), Some("dueDate"))];
    assert props[..1][..0] == [];
    assert Serialized(props[..1]) == [];
    assert props[..2][..1] == props[..1];
    assert Serialized(props[..2]) == [];
    assert props[..|props| - 1] == props[..2];
    FormatYmdExample();
    assert Serialized(props) == Put([], "dueDate", Str("2025-03-09"));
  }
}
