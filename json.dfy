/**
 * Decoded JSON values, as `requests`' `.json()` hands them to the library,
 * and the Python operations the library applies to them.
 *
 * A JSON object is kept as the ordered list of its members: Python dicts
 * remember insertion order, and the library depends on it (the first pair
 * of a dict, a key that a pop-and-set moves to the end).
 */
module Json {
  import opened Errors
  import opened Text

  datatype Json =
    | Null
    | Bool(b: bool)
    | Int(i: int)
    | Str(s: string)
    | Array(items: seq<Json>)
    | Object(members: seq<Entry>)

  datatype Entry = Entry(key: string, value: Json)

  const EmptyObject: Json := Object([])

  /** The keys of a dict, in insertion order. */
  function Keys(entries: seq<Entry>): (ks: seq<string>)
    ensures |ks| == |entries|
  {
    if entries == [] then [] else [entries[0].key] + Keys(entries[1..])
  }

  /** The keys, read position by position. */
  lemma {:induction false} KeysIndexed(entries: seq<Entry>)
    ensures Keys(entries) == seq(|entries|, i requires 0 <= i < |entries| => entries[i].key)
  {
    if entries != [] {
      KeysIndexed(entries[1..]);
    }
  }

  /** Python's `key in d` on a dict. */
  predicate HasKey(entries: seq<Entry>, key: string) {
    key in Keys(entries)
  }

  /** Python's `d.get(key)` on a dict: the value stored under `key`, if any. */
  function Lookup(entries: seq<Entry>, key: string): (r: Option<Json>)
    ensures r.None? <==> !HasKey(entries, key)
  {
    if entries == [] then None
    else if entries[0].key == key then Some(entries[0].value)
    else Lookup(entries[1..], key)
  }

  /** The key at position `i` of a dict is one of its keys. */
  lemma {:induction false} KeyAt(entries: seq<Entry>, i: nat)
    requires i < |entries|
    ensures Keys(entries)[i] == entries[i].key
  {
    if i > 0 {
      KeyAt(entries[1..], i - 1);
    }
  }

  /** The value found by Lookup is the one at the first position holding the key. */
  lemma {:induction false} LookupAt(entries: seq<Entry>, key: string, i: nat)
    requires i < |entries| && entries[i].key == key
    requires forall j :: 0 <= j < i ==> entries[j].key != key
    ensures Lookup(entries, key) == Some(entries[i].value)
  {
    if i > 0 {
      LookupAt(entries[1..], key, i - 1);
    }
  }

  /** Lookup distributes over concatenation: the left part is searched first. */
  lemma {:induction false} LookupAppend(a: seq<Entry>, b: seq<Entry>, key: string)
    ensures Keys(a + b) == Keys(a) + Keys(b)
    ensures Lookup(a + b, key) == if HasKey(a, key) then Lookup(a, key) else Lookup(b, key)
  {
    if a != [] {
      assert (a + b)[1..] == a[1..] + b;
      LookupAppend(a[1..], b, key);
    } else {
      assert a + b == b;
    }
  }

  /** Python's `d[key] = v`: replaces the value in place, or appends a new last member. */
  function Put(entries: seq<Entry>, key: string, v: Json): (r: seq<Entry>)
    ensures Lookup(r, key) == Some(v)
    ensures forall k :: k != key ==> Lookup(r, k) == Lookup(entries, k)
    ensures !HasKey(entries, key) ==> r == entries + [Entry(key, v)]
    ensures HasKey(entries, key) ==> Keys(r) == Keys(entries)
  {
    if entries == [] then [Entry(key, v)]
    else if entries[0].key == key then [Entry(key, v)] + entries[1..]
    else
      assert !HasKey(entries, key) ==> [entries[0]] + (entries[1..] + [Entry(key, v)]) == entries + [Entry(key, v)];
      [entries[0]] + Put(entries[1..], key, v)
  }

  /** Storing a key's own value again changes nothing. */
  lemma {:induction false} PutSame(entries: seq<Entry>, key: string)
    requires HasKey(entries, key)
    ensures Put(entries, key, Lookup(entries, key).value) == entries
  {
    if entries[0].key != key {
      PutSame(entries[1..], key);
    }
  }

  /** Python's `del d[key]` (and the removal half of `d.pop(key)`). */
  function Remove(entries: seq<Entry>, key: string): (r: seq<Entry>)
    ensures !HasKey(r, key)
    ensures forall k :: k != key ==> Lookup(r, k) == Lookup(entries, k)
    ensures |r| <= |entries|
  {
    if entries == [] then []
    else if entries[0].key == key then Remove(entries[1..], key)
    else [entries[0]] + Remove(entries[1..], key)
  }

  /** No key is held twice: the entry lists that stand for Python dicts. */
  predicate DictLike(entries: seq<Entry>) {
    entries == [] || (!HasKey(entries[1..], entries[0].key) && DictLike(entries[1..]))
  }

  /** `d[key] = v` keeps a dict free of repeated keys. */
  lemma {:induction false} PutKeepsDict(entries: seq<Entry>, key: string, v: Json)
    requires DictLike(entries)
    ensures DictLike(Put(entries, key, v))
  {
    if entries != [] && entries[0].key != key {
      PutKeepsDict(entries[1..], key, v);
      assert Lookup(Put(entries[1..], key, v), entries[0].key) == Lookup(entries[1..], entries[0].key);
      assert Put(entries, key, v)[1..] == Put(entries[1..], key, v);
    }
  }

  /** `del d[key]` keeps a dict free of repeated keys. */
  lemma {:induction false} RemoveKeepsDict(entries: seq<Entry>, key: string)
    requires DictLike(entries)
    ensures DictLike(Remove(entries, key))
  {
    if entries != [] {
      RemoveKeepsDict(entries[1..], key);
      if entries[0].key != key {
        assert Lookup(Remove(entries[1..], key), entries[0].key) == Lookup(entries[1..], entries[0].key);
        assert Remove(entries, key)[1..] == Remove(entries[1..], key);
      }
    }
  }

  /** Python truthiness: `None`, `False`, `0`, `""`, `[]` and `{}` are false. */
  predicate Truthy(j: Json) {
    match j
    case Null => false
    case Bool(b) => b
    case Int(i) => i != 0
    case Str(s) => s != ""
    case Array(items) => items != []
    case Object(members) => members != []
  }

  /** A bool or int read as a number (`True == 1` in Python). */
  function NumberOf(j: Json): int
    requires j.Bool? || j.Int?
  {
    if j.Bool? then (if j.b then 1 else 0) else j.i
  }

  /**
   * Python's `a == b` on decoded JSON: bools and ints compare as numbers,
   * lists element by element, dicts by their key sets and values regardless of order.
   */
  predicate PyEq(a: Json, b: Json)
    decreases a
  {
    match a
    case Null => b.Null?
    case Bool(_) => (b.Bool? || b.Int?) && NumberOf(a) == NumberOf(b)
    case Int(_) => (b.Bool? || b.Int?) && NumberOf(a) == NumberOf(b)
    case Str(s) => b.Str? && b.s == s
    case Array(xs) =>
      b.Array? && |xs| == |b.items| &&
      forall i :: 0 <= i < |xs| ==> PyEq(xs[i], b.items[i])
    case Object(ms) =>
      b.Object? && |ms| == |b.members| &&
      forall i :: 0 <= i < |ms| ==>
        var other := Lookup(b.members, ms[i].key);
        other.Some? && PyEq(ms[i].value, other.value)
  }

  /** Python's `key in c` for a string key: dict membership, list membership, or substring. */
  function PyIn(key: string, c: Json): (r: Result<bool>)
    ensures c.Object? ==> r == Ok(HasKey(c.members, key))
    ensures (c.Null? || c.Bool? || c.Int?) ==> r == Err(TypeError)
  {
    match c
    case Object(ms) => Ok(HasKey(ms, key))
    case Array(xs) => Ok(exists i :: 0 <= i < |xs| && xs[i] == Str(key))
    case Str(s) => Ok(Contains(s, key))
    case _ => Err(TypeError)
  }

  /** Python's `c[key]` for a string key. */
  function PyIndex(c: Json, key: string): (r: Result<Json>)
    ensures r.Ok? <==> c.Object? && HasKey(c.members, key)
    ensures r.Ok? ==> Lookup(c.members, key) == Some(r.value)
    ensures c.Object? && !HasKey(c.members, key) ==> r == Err(KeyError(key))
  {
    match c
    case Object(ms) =>
      (match Lookup(ms, key)
       case Some(v) => Ok(v)
       case None => Err(KeyError(key)))
    case _ => Err(TypeError)
  }

  /** Python's `c[i]` for a non-negative int index. */
  function PyAt(c: Json, i: nat): (r: Result<Json>)
    ensures c.Array? && i < |c.items| ==> r == Ok(c.items[i])
  {
    match c
    case Array(xs) => if i < |xs| then Ok(xs[i]) else Err(IndexError)
    case Str(s) => if i < |s| then Ok(Str([s[i]])) else Err(IndexError)
    case Object(_) => Err(KeyError(NatToString(i)))
    case _ => Err(TypeError)
  }

  /** Python's `c.get(key, default)`: only dicts have it. */
  function PyGet(c: Json, key: string, default: Json): (r: Result<Json>)
    ensures r.Ok? <==> c.Object?
    ensures c.Object? && !HasKey(c.members, key) ==> r == Ok(default)
    ensures c.Object? && HasKey(c.members, key) ==> Some(r.value) == Lookup(c.members, key)
  {
    if c.Object? then
      match Lookup(c.members, key)
      case Some(v) => Ok(v)
      case None => Ok(default)
    else Err(TypeError)
  }

  /** Python's `len(c)`. */
  function PyLen(c: Json): (r: Result<nat>)
    ensures c.Array? ==> r == Ok(|c.items|)
    ensures (c.Null? || c.Bool? || c.Int?) ==> r == Err(TypeError)
  {
    match c
    case Array(xs) => Ok(|xs|)
    case Object(ms) => Ok(|ms|)
    case Str(s) => Ok(|s|)
    case _ => Err(TypeError)
  }

  /** What `for x in c` (and `list.extend(c)`) visits: list items, dict keys, or characters. */
  function PyIterate(c: Json): (r: Result<seq<Json>>)
    ensures c.Array? ==> r == Ok(c.items)
    ensures (c.Null? || c.Bool? || c.Int?) ==> r == Err(TypeError)
  {
    match c
    case Array(xs) => Ok(xs)
    case Object(ms) => Ok(seq(|ms|, i requires 0 <= i < |ms| => Str(ms[i].key)))
    case Str(s) => Ok(seq(|s|, i requires 0 <= i < |s| => Str([s[i]])))
    case _ => Err(TypeError)
  }
}
