/**
 * The wire representation: a JSON value whose objects are ORDERED lists of
 * members, and PHP's array assignment on such an ordered map.
 */
module Json {
  import opened Wrappers

  /** A JSON value as the encoder receives it. An object keeps its members in insertion order. */
  datatype Wire =
    | Null
    | Str(s: string)
    | Int(i: int)
    | Bool(b: bool)
    | Obj(fields: seq<(string, Wire)>)
    | List(items: seq<Wire>)

  /** The members of an object, in order. */
  type Doc = seq<(string, Wire)>

  /** The exceptions the modelled code raises. */
  datatype Failure =
    | InvalidArgument(message: string)  // InvalidArgumentException with its message
    | InvalidCountry(country: string)   // the Address constructor's rejection of a country code
    | TypeError(name: string)           // PHP's type check of the named typed parameter or property

  /** The message of every `from_json` guard. */
  const NotAnObject: string := "JSON value must be an object."

  function Keys(d: Doc): seq<string>
  {
    seq(|d|, i requires 0 <= i < |d| => d[i].0)
  }

  predicate HasKey(d: Doc, k: string)
  {
    k in Keys(d)
  }

  /** No key occurs twice. */
  predicate NoDuplicates(ks: seq<string>)
  {
    forall i, j | 0 <= i < j < |ks| :: ks[i] != ks[j]
  }

  /** The value of the first member named `k`. */
  function Lookup(d: Doc, k: string): Option<Wire>
  {
    if |d| == 0 then None
    else if d[0].0 == k then Some(d[0].1)
    else Lookup(d[1..], k)
  }

  /** A nullable PHP string as a wire value. */
  function OptStr(o: Option<string>): (w: Wire)
    ensures w == Null <==> o.None?
    ensures o.Some? ==> w == Str(o.value)
  {
    match o
    case None => Null
    case Some(s) => Str(s)
  }

  /**
   * Reading a property of a decoded JSON object. The property accessor of the
   * library is taken to be total: a missing property reads as null.
   */
  function Property(d: Doc, k: string): (w: Wire)
    ensures !HasKey(d, k) ==> w == Null
    ensures Lookup(d, k).Some? ==> w == Lookup(d, k).value
  {
    LookupAbsent(d, k);
    match Lookup(d, k)
    case None => Null
    case Some(v) => v
  }

  /** The guard every `from_json` applies before reading members: only an object is accepted. */
  function RequireObject(json: Wire): (r: Result<Doc, Failure>)
    ensures r.Failure? <==> !json.Obj?
    ensures r.Failure? ==> r.error == InvalidArgument(NotAnObject)
    ensures r.Success? ==> r.value == json.fields
  {
    if json.Obj? then Success(json.fields) else Failure(InvalidArgument(NotAnObject))
  }

  /**
   * PHP's `$data[$k] = $v` on an array with string keys: an existing key keeps
   * its position and gets the new value, a new key is appended.
   */
  function Put(d: Doc, k: string, v: Wire): Doc
  {
    if |d| == 0 then [(k, v)]
    else if d[0].0 == k then [(k, v)] + d[1..]
    else [d[0]] + Put(d[1..], k, v)
  }

  /** The member `k` is there iff `v` is not null, and then holds `v`. */
  predicate OptionalMember(d: Doc, k: string, v: Wire)
  {
    (HasKey(d, k) <==> v != Null) && (v != Null ==> Lookup(d, k) == Some(v))
  }

  /** The member `k` is there and holds `v`, null or not. */
  predicate RequiredMember(d: Doc, k: string, v: Wire)
  {
    Lookup(d, k) == Some(v)
  }

  // ---------------------------------------------------------------- lemmas

  lemma KeysTail(d: Doc)
    requires |d| > 0
    ensures Keys(d) == [d[0].0] + Keys(d[1..])
  {
  }

  lemma KeysAppend(d: Doc, e: Doc)
    ensures Keys(d + e) == Keys(d) + Keys(e)
  {
  }

  /** Index form of NoDuplicates, in either order of the two positions. */
  lemma NoDuplicatesAt(ks: seq<string>, i: int, j: int)
    requires NoDuplicates(ks)
    requires 0 <= i < |ks| && 0 <= j < |ks| && i != j
    ensures ks[i] != ks[j]
  {
    if j < i {
      assert ks[j] != ks[i];
    }
  }

  lemma NoDuplicatesTail(ks: seq<string>)
    requires |ks| > 0 && NoDuplicates(ks)
    ensures NoDuplicates(ks[1..]) && ks[0] !in ks[1..]
  {
    forall i, j | 0 <= i < j < |ks| - 1
      ensures ks[1..][i] != ks[1..][j]
    {
      assert ks[1..][i] == ks[i + 1] && ks[1..][j] == ks[j + 1];
    }
  }

  lemma NoDuplicatesAppend(ks: seq<string>, k: string)
    requires NoDuplicates(ks) && k !in ks
    ensures NoDuplicates(ks + [k])
  {
    var e := ks + [k];
    forall i, j | 0 <= i < j < |e|
      ensures e[i] != e[j]
    {
      if j == |ks| {
        assert e[i] == ks[i];
      } else {
        assert e[i] == ks[i] && e[j] == ks[j];
      }
    }
  }

  /** Lookup finds nothing exactly when the key is absent. */
  lemma {:induction false} LookupAbsent(d: Doc, k: string)
    ensures Lookup(d, k).None? <==> !HasKey(d, k)
  {
    if |d| > 0 {
      KeysTail(d);
      LookupAbsent(d[1..], k);
    }
  }

  /** With unique keys, Lookup returns the value at the key's position. */
  lemma {:induction false} LookupAt(d: Doc, i: int)
    requires NoDuplicates(Keys(d))
    requires 0 <= i < |d|
    ensures Lookup(d, d[i].0) == Some(d[i].1)
  {
    KeysTail(d);
    if i > 0 {
      NoDuplicatesAt(Keys(d), 0, i);
      NoDuplicatesTail(Keys(d));
      assert d[i] == d[1..][i - 1];
      LookupAt(d[1..], i - 1);
    }
  }

  lemma {:induction false} LookupAppend(d: Doc, e: Doc, k: string)
    ensures Lookup(d + e, k) == if HasKey(d, k) then Lookup(d, k) else Lookup(e, k)
  {
    if |d| == 0 {
      assert d + e == e;
    } else {
      assert (d + e)[0] == d[0];
      assert (d + e)[1..] == d[1..] + e;
      KeysTail(d);
      LookupAppend(d[1..], e, k);
    }
  }

  /** Assigning a new key appends it. */
  lemma {:induction false} PutFresh(d: Doc, k: string, v: Wire)
    requires !HasKey(d, k)
    ensures Put(d, k, v) == d + [(k, v)]
  {
    if |d| > 0 {
      KeysTail(d);
      PutFresh(d[1..], k, v);
      assert d == [d[0]] + d[1..];
    }
  }

  /** Assigning an existing key replaces its value in place; nothing else moves. */
  lemma {:induction false} PutExisting(d: Doc, k: string, v: Wire, i: int)
    requires NoDuplicates(Keys(d))
    requires 0 <= i < |d| && d[i].0 == k
    ensures Put(d, k, v) == d[i := (k, v)]
  {
    KeysTail(d);
    if i > 0 {
      NoDuplicatesAt(Keys(d), 0, i);
      NoDuplicatesTail(Keys(d));
      assert d[i] == d[1..][i - 1];
      PutExisting(d[1..], k, v, i - 1);
      assert d[1..][i - 1 := (k, v)] == d[i := (k, v)][1..];
    }
  }

  /** What assignment does to the key list: unchanged for an old key, one more at the end for a new one. */
  lemma PutKeys(d: Doc, k: string, v: Wire)
    requires NoDuplicates(Keys(d))
    ensures Keys(Put(d, k, v)) == if HasKey(d, k) then Keys(d) else Keys(d) + [k]
    ensures NoDuplicates(Keys(Put(d, k, v)))
  {
    if HasKey(d, k) {
      var i :| 0 <= i < |Keys(d)| && Keys(d)[i] == k;
      PutExisting(d, k, v, i);
      assert Keys(d[i := (k, v)]) == Keys(d);
    } else {
      PutFresh(d, k, v);
      KeysAppend(d, [(k, v)]);
      NoDuplicatesAppend(Keys(d), k);
    }
  }

  /** After `$d[$k] = $v`, `$k` reads `$v` and every other key reads what it read before. */
  lemma {:induction false} PutLookup(d: Doc, k: string, v: Wire, k': string)
    ensures Lookup(Put(d, k, v), k') == if k' == k then Some(v) else Lookup(d, k')
  {
    if |d| > 0 && d[0].0 != k {
      PutLookup(d[1..], k, v, k');
    }
  }

  /** Re-assigning the value a unique key already holds changes nothing. */
  lemma PutSame(d: Doc, k: string, v: Wire)
    requires NoDuplicates(Keys(d))
    requires Lookup(d, k) == Some(v)
    ensures Put(d, k, v) == d
  {
    LookupAbsent(d, k);
    var i :| 0 <= i < |Keys(d)| && Keys(d)[i] == k;
    PutExisting(d, k, v, i);
    LookupAt(d, i);
    assert d[i] == (k, v);
  }

  /** Assigning one key leaves the optional member of any other key as it was. */
  lemma PutKeepsMember(d: Doc, k: string, v: Wire, k': string, v': Wire)
    requires k' != k && OptionalMember(d, k', v')
    ensures OptionalMember(Put(d, k, v), k', v')
  {
    PutLookup(d, k, v, k');
    LookupAbsent(d, k');
    LookupAbsent(Put(d, k, v), k');
  }

  /** Reading back a member through ObjectAccess gives the value that was offered, null meaning absent. */
  lemma PropertyOfMember(d: Doc, k: string, v: Wire)
    requires OptionalMember(d, k, v) || RequiredMember(d, k, v)
    ensures Property(d, k) == v
  {
    if v == Null && !RequiredMember(d, k, v) {
      LookupAbsent(d, k);
    }
  }

  /** Dropping the last key keeps the others distinct, and the dropped key is not among them. */
  lemma {:induction false} NoDuplicatesPrefix(ks: seq<string>)
    requires |ks| > 0 && NoDuplicates(ks)
    ensures NoDuplicates(ks[..|ks| - 1]) && ks[|ks| - 1] !in ks[..|ks| - 1]
  {
    if |ks| > 1 {
      assert ks[1..][..|ks| - 2] == ks[..|ks| - 1][1..];
      NoDuplicatesPrefix(ks[1..]);
    }
    forall i | 0 <= i < |ks| - 1
      ensures ks[i] != ks[|ks| - 1]
    {
      NoDuplicatesAt(ks, i, |ks| - 1);
    }
  }
}
