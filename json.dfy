/** The values of the settings document, as Python's json module loads them.
    A dictionary keeps the order in which its keys were inserted, because
    the job validator reports errors in that order. */
module Json {
  import opened Outcomes

  datatype Value =
    | Null
    | Bool(b: bool)
    | Num(n: int)
    | Str(s: string)
    | List(elems: seq<Value>)
    | Dict(items: Items)

  /** The (key, value) pairs of a dictionary, in insertion order. */
  type Items = seq<(string, Value)>

  function Keys(d: Items): seq<string>
  {
    if d == [] then [] else [d[0].0] + Keys(d[1..])
  }

  /** `d.get(k)` */
  function Get(d: Items, k: string): Option<Value>
  {
    if d == [] then None
    else if d[0].0 == k then Some(d[0].1)
    else Get(d[1..], k)
  }

  /** `k in d` */
  predicate HasKey(d: Items, k: string)
  {
    Get(d, k).Some?
  }

  /** `d[k] = v`: a key already present keeps its place, a new key goes last. */
  function Put(d: Items, k: string, v: Value): (r: Items)
    ensures Get(r, k) == Some(v)
    ensures forall k' {:trigger Get(r, k')} :: k' != k ==> Get(r, k') == Get(d, k')
  {
    if d == [] then [(k, v)]
    else if d[0].0 == k then [(k, v)] + d[1..]
    else [d[0]] + Put(d[1..], k, v)
  }

  /** `del d[k]` (a Python dictionary holds each key once, so removing every
      pair with key `k` removes the one entry). */
  function Remove(d: Items, k: string): (r: Items)
    ensures !HasKey(r, k)
    ensures forall k' {:trigger Get(r, k')} :: k' != k ==> Get(r, k') == Get(d, k')
  {
    if d == [] then []
    else if d[0].0 == k then Remove(d[1..], k)
    else [d[0]] + Remove(d[1..], k)
  }

  /** Assigning a key twice leaves the second value, in the first one's place. */
  lemma {:induction false} PutPut(d: Items, k: string, v: Value, w: Value)
    ensures Put(Put(d, k, v), k, w) == Put(d, k, w)
  {
    if d != [] && d[0].0 != k {
      PutPut(d[1..], k, v, w);
      assert Put(d, k, v)[1..] == Put(d[1..], k, v);
    }
  }

  /** Deleting an absent key changes nothing. */
  lemma {:induction false} RemoveAbsent(d: Items, k: string)
    requires !HasKey(d, k)
    ensures Remove(d, k) == d
  {
    if d != [] {
      RemoveAbsent(d[1..], k);
    }
  }

  /** Every key occurs once, as in every dictionary Python builds. */
  predicate UniqueKeys(d: Items)
  {
    d == [] || (!HasKey(d[1..], d[0].0) && UniqueKeys(d[1..]))
  }

  /** Assigning to a key keeps the order of the existing keys and appends a new one. */
  lemma {:induction false} KeysPut(d: Items, k: string, v: Value)
    ensures Keys(Put(d, k, v)) == if HasKey(d, k) then Keys(d) else Keys(d) + [k]
  {
    if d != [] && d[0].0 != k {
      KeysPut(d[1..], k, v);
      assert Put(d, k, v) == [d[0]] + Put(d[1..], k, v);
    }
  }

  lemma {:induction false} PutKeepsUnique(d: Items, k: string, v: Value)
    requires UniqueKeys(d)
    ensures UniqueKeys(Put(d, k, v))
  {
    if d != [] && d[0].0 != k {
      PutKeepsUnique(d[1..], k, v);
      var r := Put(d, k, v);
      assert r[0] == d[0] && r[1..] == Put(d[1..], k, v);
    } else if d != [] {
      var r := Put(d, k, v);
      assert r[1..] == d[1..];
    }
  }

  lemma {:induction false} RemoveKeepsUnique(d: Items, k: string)
    requires UniqueKeys(d)
    ensures UniqueKeys(Remove(d, k))
  {
    if d != [] {
      RemoveKeepsUnique(d[1..], k);
      if d[0].0 != k {
        var r := Remove(d, k);
        assert r[0] == d[0] && r[1..] == Remove(d[1..], k);
      }
    }
  }

  /** Python truthiness: `None`, `False`, `0` and empty strings, lists and
      dictionaries are false. */
  predicate Truthy(v: Value)
  {
    match v
    case Null => false
    case Bool(b) => b
    case Num(n) => n != 0
    case Str(s) => s != []
    case List(es) => es != []
    case Dict(d) => d != []
  }

  /** `needle in hay` for two strings. */
  predicate IsSubstring(needle: string, hay: string)
  {
    needle <= hay || (hay != [] && IsSubstring(needle, hay[1..]))
  }

  /** `item in container` for a string item. */
  function Contains(container: Value, item: string): Result<bool>
  {
    match container
    case Dict(d) => Ok(HasKey(d, item))
    case List(es) => Ok(Str(item) in es)
    case Str(s) => Ok(IsSubstring(item, s))
    case _ => Raise(TypeError)
  }

  /** `container[key]` for a string key. */
  function Subscript(container: Value, key: string): Result<Value>
  {
    match container
    case Dict(d) => if HasKey(d, key) then Ok(Get(d, key).value) else Raise(KeyError)
    case _ => Raise(TypeError)
  }

  /** The elements a `for` loop visits: a list's elements, a dictionary's keys,
      a string's one-character strings. */
  function Iterate(v: Value): Result<seq<Value>>
  {
    match v
    case List(es) => Ok(es)
    case Dict(d) => Ok(seq(|d|, i requires 0 <= i < |d| => Str(d[i].0)))
    case Str(s) => Ok(seq(|s|, i requires 0 <= i < |s| => Str([s[i]])))
    case _ => Raise(TypeError)
  }
}
