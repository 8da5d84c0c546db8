/**
 * The ordered-map builder every hand-written `jsonSerialize` drives:
 * `set_required` always stores, `set_optional` stores only a non-null value,
 * and both store by PHP array assignment (`Json.Put`).
 */
module MollieObjectBuilder {
  import opened Wrappers
  import opened Json

  datatype Policy = Required | Optional

  /** One call on a builder: `set_required` or `set_optional` with its key and value. */
  datatype Setter = Setter(policy: Policy, key: string, value: Wire)

  function SetterKeys(ss: seq<Setter>): seq<string>
  {
    seq(|ss|, i requires 0 <= i < |ss| => ss[i].key)
  }

  /** What one call does to the stored data. */
  function Apply(d: Doc, s: Setter): Doc
  {
    if s.policy == Optional && s.value == Null then d else Put(d, s.key, s.value)
  }

  /** The data of a fresh builder after the calls `ss`, in order. */
  function Run(ss: seq<Setter>): Doc
    decreases |ss|
  {
    if |ss| == 0 then [] else Apply(Run(ss[..|ss| - 1]), ss[|ss| - 1])
  }

  /** A call that stores its pair: a required one, or an optional one with a non-null value. */
  predicate Emits(s: Setter)
  {
    s.policy == Required || s.value != Null
  }

  /** Declarative reading of a call list: the pairs of the storing calls, in call order. */
  function Emitted(ss: seq<Setter>): Doc
    decreases |ss|
  {
    if |ss| == 0 then []
    else
      var s := ss[|ss| - 1];
      Emitted(ss[..|ss| - 1]) + (if Emits(s) then [(s.key, s.value)] else [])
  }

  /** `a` is `b` with some elements left out, order kept. */
  predicate Subsequence(a: seq<string>, b: seq<string>)
    decreases |b|
  {
    if |a| == 0 then true
    else if |b| == 0 then false
    else if a[|a| - 1] == b[|b| - 1] then Subsequence(a[..|a| - 1], b[..|b| - 1])
    else Subsequence(a, b[..|b| - 1])
  }

  /** The log of the calls made on a builder, latest last. */
  datatype Calls = Start | Then(before: Calls, last: Setter)
  {
    /** This log followed by a `set_optional` call. */
    function SetOptional(key: string, value: Wire): Calls
    {
      Then(this, Setter(Optional, key, value))
    }

    /** This log followed by a `set_required` call. */
    function SetRequired(key: string, value: Wire): Calls
    {
      Then(this, Setter(Required, key, value))
    }

    /** The calls in order, as a sequence. */
    function Setters(): seq<Setter>
    {
      match this
      case Start => []
      case Then(c, s) => c.Setters() + [s]
    }
  }

  /** The data of a fresh builder after the logged calls, one call at a time. */
  function Replay(c: Calls): Doc
  {
    match c
    case Start => []
    case Then(before, s) => Apply(Replay(before), s)
  }

  class ObjectBuilder {
    var data: Doc
    /** The calls made so far. */
    ghost var calls: Calls

    ghost predicate Valid()
      reads this
    {
      data == Replay(calls)
    }

    /** A new builder holds nothing, so it serialises to the empty object. */
    constructor ()
      ensures Valid() && calls == Start && data == []
    {
      data := [];
      calls := Start;
    }

    /** `set_optional`: a null value is not stored; any other value is assigned. */
    method SetOptional(key: string, value: Wire)
      requires Valid()
      modifies this
      ensures Valid() && calls == old(calls).SetOptional(key, value)
      ensures data == Apply(old(data), Setter(Optional, key, value))
    {
      calls := calls.SetOptional(key, value);
      if value == Null {
        return;
      }
      SetValue(key, value);
    }

    /** `set_required`: the value is assigned, even a null one. */
    method SetRequired(key: string, value: Wire)
      requires Valid()
      modifies this
      ensures Valid() && calls == old(calls).SetRequired(key, value)
      ensures data == Apply(old(data), Setter(Required, key, value))
    {
      calls := calls.SetRequired(key, value);
      SetValue(key, value);
    }

    /** `set_value`: PHP array assignment on the stored data. */
    method SetValue(key: string, value: Wire)
      modifies this
      ensures data == Put(old(data), key, value) && calls == old(calls)
    {
      data := Put(data, key, value);
    }

    /** The accumulated pairs as an object; the builder is left as it was. */
    method JsonSerialize() returns (doc: Wire)
      ensures doc == Obj(data)
    {
      doc := Obj(data);
    }
  }

  // ---------------------------------------------------------------- lemmas

  /**
   * `set_optional` with null leaves the data exactly as it was; with any other
   * value the key then holds that value.
   */
  lemma ApplyOptional(d: Doc, k: string, v: Wire)
    ensures v == Null ==> Apply(d, Setter(Optional, k, v)) == d
    ensures v != Null ==> Apply(d, Setter(Optional, k, v)) == Put(d, k, v)
    ensures v != Null ==> Lookup(Apply(d, Setter(Optional, k, v)), k) == Some(v)
  {
    PutLookup(d, k, v, k);
  }

  /** `set_required` always leaves the key present, holding the value, null included. */
  lemma ApplyRequired(d: Doc, k: string, v: Wire)
    ensures Apply(d, Setter(Required, k, v)) == Put(d, k, v)
    ensures HasKey(Apply(d, Setter(Required, k, v)), k)
    ensures Lookup(Apply(d, Setter(Required, k, v)), k) == Some(v)
  {
    PutLookup(d, k, v, k);
    LookupAbsent(Put(d, k, v), k);
  }

  lemma RunSnoc(ss: seq<Setter>, s: Setter)
    ensures Run(ss + [s]) == Apply(Run(ss), s)
  {
    assert (ss + [s])[..|ss|] == ss;
  }

  /** An optional call with a null value can be dropped from a call list: it changes nothing. */
  lemma {:induction false} RunSkipNull(a: seq<Setter>, s: Setter, b: seq<Setter>)
    requires s.policy == Optional && s.value == Null
    ensures Run(a + [s] + b) == Run(a + b)
    decreases |b|
  {
    if |b| == 0 {
      assert a + [s] + b == a + [s];
      assert a + b == a;
      RunSnoc(a, s);
    } else {
      var b', x := b[..|b| - 1], b[|b| - 1];
      assert a + [s] + b == (a + [s] + b') + [x];
      assert a + b == (a + b') + [x];
      RunSnoc(a + [s] + b', x);
      RunSnoc(a + b', x);
      RunSkipNull(a, s, b');
    }
  }

  /** One more logged call is one more element at the end of the sequence. */
  lemma SettersSnoc()
    ensures forall c: Calls, s: Setter :: Then(c, s).Setters() == c.Setters() + [s]
  {
  }

  /** Replaying the log is running its calls in order. */
  lemma {:induction false} ReplayIsRun(c: Calls)
    ensures Replay(c) == Run(c.Setters())
  {
    if c.Then? {
      ReplayIsRun(c.before);
      RunSnoc(c.before.Setters(), c.last);
    }
  }

  lemma EmittedSnoc(ss: seq<Setter>, s: Setter)
    ensures Emitted(ss + [s]) == Emitted(ss) + (if Emits(s) then [(s.key, s.value)] else [])
  {
    assert (ss + [s])[..|ss|] == ss;
  }

  /** EmittedSnoc for every list at once, so that a chain of appended calls unfolds step by step. */
  lemma EmittedSnocAll()
    ensures forall ss: seq<Setter>, s: Setter ::
      Emitted(ss + [s]) == Emitted(ss) + (if Emits(s) then [(s.key, s.value)] else [])
  {
    forall ss: seq<Setter>, s: Setter
      ensures Emitted(ss + [s]) == Emitted(ss) + (if Emits(s) then [(s.key, s.value)] else [])
    {
      EmittedSnoc(ss, s);
    }
  }

  /** The pairs emitted by two call lists run one after the other are the two lists' pairs, concatenated. */
  lemma {:induction false} EmittedAppend(a: seq<Setter>, b: seq<Setter>)
    ensures Emitted(a + b) == Emitted(a) + Emitted(b)
    decreases |b|
  {
    if |b| == 0 {
      assert a + b == a;
    } else {
      var b', s := b[..|b| - 1], b[|b| - 1];
      assert b == b' + [s];
      assert a + b == (a + b') + [s];
      EmittedSnoc(a + b', s);
      EmittedSnoc(b', s);
      EmittedAppend(a, b');
    }
  }

  /** Calls that all store their pair leave exactly those pairs, in call order. */
  lemma {:induction false} EmittedAllStored(ss: seq<Setter>)
    requires forall i :: 0 <= i < |ss| ==> Emits(ss[i])
    ensures |Emitted(ss)| == |ss|
    ensures forall i :: 0 <= i < |ss| ==> Emitted(ss)[i] == (ss[i].key, ss[i].value)
    decreases |ss|
  {
    if |ss| > 0 {
      EmittedAllStored(ss[..|ss| - 1]);
    }
  }

  /** When the first `n` calls are required, the first `n` stored pairs are theirs. */
  lemma EmittedRequiredPrefix(ss: seq<Setter>, n: int)
    requires 0 <= n <= |ss|
    requires forall i :: 0 <= i < n ==> ss[i].policy == Required
    ensures |Emitted(ss)| >= n
    ensures forall i :: 0 <= i < n ==> Emitted(ss)[i] == (ss[i].key, ss[i].value)
  {
    assert ss == ss[..n] + ss[n..];
    EmittedAppend(ss[..n], ss[n..]);
    EmittedAllStored(ss[..n]);
  }

  /** Calls that all store nothing leave nothing behind. */
  lemma {:induction false} EmittedNothing(ss: seq<Setter>)
    requires forall i :: 0 <= i < |ss| ==> !Emits(ss[i])
    ensures Emitted(ss) == []
    decreases |ss|
  {
    if |ss| > 0 {
      EmittedNothing(ss[..|ss| - 1]);
    }
  }

  lemma SetterKeysPrefix(ss: seq<Setter>)
    requires |ss| > 0
    ensures SetterKeys(ss) == SetterKeys(ss[..|ss| - 1]) + [ss[|ss| - 1].key]
  {
  }

  /** The stored keys are never duplicated, whatever the calls: an invariant of the builder. */
  lemma {:induction false} RunKeysUnique(ss: seq<Setter>)
    ensures NoDuplicates(Keys(Run(ss)))
  {
    if |ss| > 0 {
      var p, s := ss[..|ss| - 1], ss[|ss| - 1];
      RunKeysUnique(p);
      if Emits(s) {
        PutKeys(Run(p), s.key, s.value);
      }
    }
  }

  /** A key of the emitted pairs comes from a storing call with that key. */
  lemma {:induction false} EmittedKeySource(ss: seq<Setter>, k: string)
    requires HasKey(Emitted(ss), k)
    ensures exists i :: 0 <= i < |ss| && ss[i].key == k && Emits(ss[i])
  {
    var p, s := ss[..|ss| - 1], ss[|ss| - 1];
    var tail: Doc := if Emits(s) then [(s.key, s.value)] else [];
    KeysAppend(Emitted(p), tail);
    if HasKey(Emitted(p), k) {
      EmittedKeySource(p, k);
      var i :| 0 <= i < |p| && p[i].key == k && Emits(p[i]);
      assert ss[i] == p[i];
    } else {
      assert ss[|ss| - 1].key == k && Emits(ss[|ss| - 1]);
    }
  }

  /** The keys of the emitted pairs are call keys. */
  lemma EmittedKeysAreCallKeys(ss: seq<Setter>, k: string)
    requires HasKey(Emitted(ss), k)
    ensures k in SetterKeys(ss)
  {
    EmittedKeySource(ss, k);
    var i :| 0 <= i < |ss| && ss[i].key == k && Emits(ss[i]);
    assert SetterKeys(ss)[i] == k;
  }

  /** With distinct keys, the last call's key is not among the pairs the earlier calls emitted. */
  lemma LastKeyFresh(ss: seq<Setter>)
    requires |ss| > 0 && NoDuplicates(SetterKeys(ss))
    ensures NoDuplicates(SetterKeys(ss[..|ss| - 1]))
    ensures !HasKey(Emitted(ss[..|ss| - 1]), ss[|ss| - 1].key)
  {
    var p, s := ss[..|ss| - 1], ss[|ss| - 1];
    SetterKeysPrefix(ss);
    NoDuplicatesPrefix(SetterKeys(ss));
    assert SetterKeys(ss)[..|ss| - 1] == SetterKeys(p);
    if HasKey(Emitted(p), s.key) {
      EmittedKeysAreCallKeys(p, s.key);
      assert false;
    }
  }

  /**
   * With distinct keys the builder's operational result is the declarative one:
   * no call ever overwrites, so the data is the storing calls' pairs in call order.
   */
  lemma {:induction false} RunIsEmitted(ss: seq<Setter>)
    requires NoDuplicates(SetterKeys(ss))
    ensures Run(ss) == Emitted(ss)
    ensures NoDuplicates(Keys(Emitted(ss)))
  {
    if |ss| > 0 {
      var p, s := ss[..|ss| - 1], ss[|ss| - 1];
      LastKeyFresh(ss);
      RunIsEmitted(p);
      if Emits(s) {
        assert Emitted(ss) == Emitted(p) + [(s.key, s.value)];
        PutFresh(Emitted(p), s.key, s.value);
        KeysAppend(Emitted(p), [(s.key, s.value)]);
        assert Keys([(s.key, s.value)]) == [s.key];
        NoDuplicatesAppend(Keys(Emitted(p)), s.key);
      } else {
        assert Emitted(ss) == Emitted(p) + [];
        assert Emitted(p) + [] == Emitted(p);
      }
    }
  }

  /**
   * With distinct keys, the key of call `i` is in the emitted pairs iff that
   * call stores, and then it holds the call's value.
   */
  lemma {:induction false} EmittedKeyAt(ss: seq<Setter>, i: int)
    requires NoDuplicates(SetterKeys(ss))
    requires 0 <= i < |ss|
    ensures HasKey(Emitted(ss), ss[i].key) <==> Emits(ss[i])
    ensures Emits(ss[i]) ==> Lookup(Emitted(ss), ss[i].key) == Some(ss[i].value)
  {
    var p, s := ss[..|ss| - 1], ss[|ss| - 1];
    var tail: Doc := if Emits(s) then [(s.key, s.value)] else [];
    SetterKeysPrefix(ss);
    NoDuplicatesPrefix(SetterKeys(ss));
    LastKeyFresh(ss);
    KeysAppend(Emitted(p), tail);
    LookupAppend(Emitted(p), tail, ss[i].key);
    assert Emitted(ss) == Emitted(p) + tail;
    assert Keys(tail) == if Emits(s) then [s.key] else [];
    if i < |ss| - 1 {
      assert ss[i] == p[i];
      EmittedKeyAt(p, i);
      NoDuplicatesAt(SetterKeys(ss), i, |ss| - 1);
    }
  }

  /** The emitted keys appear in call order: they are a subsequence of the call keys. */
  lemma {:induction false} EmittedKeysInCallOrder(ss: seq<Setter>)
    requires NoDuplicates(SetterKeys(ss))
    ensures Subsequence(Keys(Emitted(ss)), SetterKeys(ss))
  {
    if |ss| > 0 {
      var p, s := ss[..|ss| - 1], ss[|ss| - 1];
      var tail: Doc := if Emits(s) then [(s.key, s.value)] else [];
      SetterKeysPrefix(ss);
      LastKeyFresh(ss);
      EmittedKeysInCallOrder(p);
      KeysAppend(Emitted(p), tail);
      assert Emitted(ss) == Emitted(p) + tail;
      assert Keys(tail) == if Emits(s) then [s.key] else [];
      var a := Keys(Emitted(ss));
      if Emits(s) {
        assert a[..|a| - 1] == Keys(Emitted(p));
      } else if |a| > 0 {
        assert a == Keys(Emitted(p));
        assert a[|a| - 1] in Keys(Emitted(p));
      }
    }
  }

  /**
   * With distinct keys, call `i` decides its member of the result on its own:
   * an optional call's key is there iff its value is non-null, a required
   * call's key is always there, and either holds the call's value.
   */
  lemma MemberAt(ss: seq<Setter>, i: int)
    requires NoDuplicates(SetterKeys(ss))
    requires 0 <= i < |ss|
    ensures ss[i].policy == Optional ==> OptionalMember(Run(ss), ss[i].key, ss[i].value)
    ensures ss[i].policy == Required ==> RequiredMember(Run(ss), ss[i].key, ss[i].value)
  {
    RunIsEmitted(ss);
    EmittedKeyAt(ss, i);
  }

  /** With distinct keys the stored keys are the storing calls' keys, in call order and each once. */
  lemma RunKeysInCallOrder(ss: seq<Setter>)
    requires NoDuplicates(SetterKeys(ss))
    ensures Subsequence(Keys(Run(ss)), SetterKeys(ss))
    ensures NoDuplicates(Keys(Run(ss)))
  {
    RunIsEmitted(ss);
    EmittedKeysInCallOrder(ss);
  }
}
