/** Python 2 values as the query engine handles them: the decoded JSON query
    document, the cells of database rows and the result objects it builds.
    A Python dict is an association list kept in iteration order. */
module PyValue {

  datatype Option<T> = None | Some(value: T)

  /** The exceptions the engine can raise. */
  datatype Exception =
    | BadRequest(field: Value)   // grano.lib.exc.BadRequest('Unknown field: ...')
    | AttributeError
    | TypeError
    | IndexError
    | KeyError
    | StopIteration

  datatype Result<T> = Ok(value: T) | Err(error: Exception) {
    predicate IsFailure() { Err? }
    function PropagateFailure<U>(): Result<U> requires Err? { Err(error) }
    function Extract(): T requires Ok? { value }
  }

  /** A statement that either completes or raises. */
  datatype Outcome = Pass | Fail(error: Exception)

  datatype Value =
    | Null                      // None
    | Bool(b: bool)
    | Int(i: int)               // int, or long beyond sys.maxint
    | Float(f: real)
    | Str(s: string)            // str or unicode
    | DateTime(stamp: int)      // datetime.datetime, as an opaque instant
    | List(items: seq<Value>)   // list or tuple
    | Dict(entries: seq<Entry>) // dict, in iteration order

  datatype Entry = Entry(key: Value, val: Value)

  /** `d.get(k)`: the value of the first entry with key `k`. */
  function Get(d: seq<Entry>, k: Value): Option<Value>
  {
    if d == [] then None
    else if d[0].key == k then Some(d[0].val)
    else Get(d[1..], k)
  }

  /** `k in d` */
  predicate HasKey(d: seq<Entry>, k: Value)
  {
    Get(d, k).Some?
  }

  /** `d.get(k, default)` */
  function GetOr(d: seq<Entry>, k: Value, default: Value): Value
  {
    match Get(d, k)
    case Some(v) => v
    case None => default
  }

  /** `d[k] = v`: an existing entry is overwritten in place, a new key goes last. */
  function Put(d: seq<Entry>, k: Value, v: Value): (r: seq<Entry>)
    ensures Get(r, k) == Some(v)
    ensures forall j :: j != k ==> Get(r, j) == Get(d, j)
  {
    if d == [] then [Entry(k, v)]
    else if d[0].key == k then [Entry(k, v)] + d[1..]
    else [d[0]] + Put(d[1..], k, v)
  }

  /** `d.pop(k)` with the value discarded (`del d[k]` when present). */
  function Remove(d: seq<Entry>, k: Value): (r: seq<Entry>)
    ensures Get(r, k) == None
    ensures forall j :: j != k ==> Get(r, j) == Get(d, j)
    ensures |r| <= |d|
  {
    if d == [] then []
    else if d[0].key == k then Remove(d[1..], k)
    else [d[0]] + Remove(d[1..], k)
  }

  /** `d[k] = v` adds no entry but the one for `k`. */
  lemma {:induction false} PutEntries(d: seq<Entry>, k: Value, v: Value)
    ensures forall e :: e in Put(d, k, v) && e.key != k ==> e in d
  {
    if d != [] && d[0].key != k {
      PutEntries(d[1..], k, v);
    }
  }

  /** `d.pop(k)` adds no entry and leaves none for `k`. */
  lemma {:induction false} RemoveEntries(d: seq<Entry>, k: Value)
    ensures forall e :: e in Remove(d, k) ==> e in d && e.key != k
  {
    if d != [] {
      RemoveEntries(d[1..], k);
    }
  }

  lemma {:induction false} PutKeepsUnique(d: seq<Entry>, k: Value, v: Value)
    requires UniqueKeys(d)
    ensures UniqueKeys(Put(d, k, v))
  {
    if d != [] && d[0].key != k {
      PutKeepsUnique(d[1..], k, v);
      PutEntries(d[1..], k, v);
      ConsUnique(d[0], Put(d[1..], k, v));
    } else if d != [] {
      ConsUnique(Entry(k, v), d[1..]);
    }
  }

  lemma {:induction false} RemoveKeepsUnique(d: seq<Entry>, k: Value)
    requires UniqueKeys(d)
    ensures UniqueKeys(Remove(d, k))
  {
    if d != [] {
      RemoveKeepsUnique(d[1..], k);
      RemoveEntries(d[1..], k);
      if d[0].key != k { ConsUnique(d[0], Remove(d[1..], k)); }
    }
  }

  /** Putting an entry in front of a dict that lacks its key keeps the keys unique. */
  lemma ConsUnique(e: Entry, d: seq<Entry>)
    requires UniqueKeys(d)
    requires forall x :: x in d ==> x.key != e.key
    ensures UniqueKeys([e] + d)
  {
    var r := [e] + d;
    forall i, j | 0 <= i < j < |r| ensures r[i].key != r[j].key {
      if i > 0 { assert r[i] == d[i - 1] && r[j] == d[j - 1]; } else { assert r[j] in d; }
    }
  }

  /** Every key occurs once, as in every Python dict. */
  predicate UniqueKeys(d: seq<Entry>)
  {
    forall i, j :: 0 <= i < j < |d| ==> d[i].key != d[j].key
  }

  lemma {:induction false} InGet(d: seq<Entry>, e: Entry)
    requires e in d
    ensures Get(d, e.key).Some?
  {
    if d[0] != e { InGet(d[1..], e); }
  }

  lemma {:induction false} GetIn(d: seq<Entry>, k: Value)
    requires Get(d, k).Some?
    ensures Entry(k, Get(d, k).value) in d
  {
    if d[0].key != k { GetIn(d[1..], k); }
  }

  /** In a dict with unique keys the entry at `i` is what `Get` finds. */
  lemma {:induction false} GetAt(d: seq<Entry>, i: nat)
    requires UniqueKeys(d) && i < |d|
    ensures Get(d, d[i].key) == Some(d[i].val)
  {
    if i > 0 {
      assert d[0].key != d[i].key;
      assert d[1..][i - 1] == d[i];
      GetAt(d[1..], i - 1);
    }
  }

  /** Past entries with other keys, `d.get(k)` finds the same in the rest of the dict. */
  lemma GetSkip(d: seq<Entry>, i: nat, k: Value)
    requires i < |d| && d[i].key != k
    ensures Get(d[i..], k) == Get(d[i + 1..], k)
  {
    assert d[i..][0] == d[i] && d[i..][1..] == d[i + 1..];
  }

  /** Nesting depth; every entry of a dict and every item of a list is shallower. */
  function Depth(v: Value): nat
    decreases v, 1
  {
    match v
    case List(items) => 1 + MaxItemDepth(v, |items|)
    case Dict(entries) => 1 + MaxEntryDepth(v, |entries|)
    case _ => 0
  }

  function MaxItemDepth(v: Value, n: nat): nat
    requires v.List? && n <= |v.items|
    decreases v, 0, n
  {
    if n == 0 then 0
    else
      var a := Depth(v.items[n - 1]);
      var b := MaxItemDepth(v, n - 1);
      if a < b then b else a
  }

  function MaxEntryDepth(v: Value, n: nat): nat
    requires v.Dict? && n <= |v.entries|
    decreases v, 0, n
  {
    if n == 0 then 0
    else
      var a := Depth(v.entries[n - 1].val);
      var b := MaxEntryDepth(v, n - 1);
      if a < b then b else a
  }

  lemma {:induction false} MaxItemBound(v: Value, n: nat, i: nat)
    requires v.List? && i < n <= |v.items|
    ensures Depth(v.items[i]) <= MaxItemDepth(v, n)
  {
    if i < n - 1 {
      MaxItemBound(v, n - 1, i);
    }
  }

  lemma {:induction false} MaxEntryBound(v: Value, n: nat, i: nat)
    requires v.Dict? && i < n <= |v.entries|
    ensures Depth(v.entries[i].val) <= MaxEntryDepth(v, n)
  {
    if i < n - 1 {
      MaxEntryBound(v, n - 1, i);
    }
  }

  lemma EntryDepth(d: seq<Entry>, e: Entry)
    requires e in d
    ensures Depth(e.val) < Depth(Dict(d))
  {
    var i :| 0 <= i < |d| && d[i] == e;
    MaxEntryBound(Dict(d), |d|, i);
  }

  lemma ItemDepth(items: seq<Value>, i: nat)
    requires i < |items|
    ensures Depth(items[i]) < Depth(List(items))
  {
    MaxItemBound(List(items), |items|, i);
  }
}
