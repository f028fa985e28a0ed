/** The module-level `run(query)` of grano/ql/query.py: the decoded query document
    becomes the root node, its `limit` is capped at 1000 (25 when absent) and its
    `offset` kept from going below 0, both with Python 2's `min` and `max`, and the
    root `EntityQuery` is built on the result. */
module TopLevel {
  import opened PyValue
  import opened Parser
  import opened Registry
  import opened Tree

  const MaxLimit := 1000
  const DefaultLimit := 25

  // ---------------------------------------------------------------------------
  // Python 2's ordering, seen from an int

  /** The sign of `a` compared with the int `n`, as CPython 2 orders values: numbers
      (bool, int, float) by their value, None below every number, a datetime refuses
      to be compared, and every other type (str, list, dict) sorts above the numbers. */
  function CompareToInt(a: Value, n: int): Result<int>
  {
    match a
    case Null => Ok(-1)
    case Bool(b) => Ok(Sign((if b then 1 else 0) as real - n as real))
    case Int(i) => Ok(Sign(i as real - n as real))
    case Float(f) => Ok(Sign(f - n as real))
    case DateTime(_) => Err(TypeError)
    case _ => Ok(1)
  }

  function Sign(x: real): int
  {
    if x < 0.0 then -1 else if x == 0.0 then 0 else 1
  }

  /** `min(n, v)`: `v` replaces `n` only when `v < n`. */
  function Py2Min(n: int, v: Value): Result<Value>
  {
    var c :- CompareToInt(v, n);
    Ok(if c < 0 then v else Int(n))
  }

  /** `max(n, v)`: `v` replaces `n` only when `v > n`. */
  function Py2Max(n: int, v: Value): Result<Value>
  {
    var c :- CompareToInt(v, n);
    Ok(if c > 0 then v else Int(n))
  }

  /** A reference ordering: the rank of a value's type (None, the numbers, the other
      comparable types) and, for a number, its value. */
  function TypeRank(a: Value): int
  {
    match a
    case Null => 0
    case Bool(_) => 1
    case Int(_) => 1
    case Float(_) => 1
    case _ => 2
  }

  function Num(a: Value): real
    requires TypeRank(a) == 1
  {
    match a
    case Bool(b) => if b then 1.0 else 0.0
    case Int(i) => i as real
    case Float(f) => f
  }

  /** `a <= b` in the reference ordering, for values that are not both of the last rank
      unless they are the same value. */
  predicate AtMost(a: Value, b: Value)
  {
    TypeRank(a) < TypeRank(b) || (TypeRank(a) == TypeRank(b) && (TypeRank(a) == 1 ==> Num(a) <= Num(b)))
  }

  /** The comparison with an int agrees with the reference ordering: it fails exactly
      on a datetime, and otherwise its sign says which of `a <= n` and `n <= a` hold. */
  lemma CompareAgrees(a: Value, n: int)
    ensures CompareToInt(a, n).Err? <==> a.DateTime?
    ensures CompareToInt(a, n).Ok? ==> (CompareToInt(a, n).value <= 0 <==> AtMost(a, Int(n)))
    ensures CompareToInt(a, n).Ok? ==> (CompareToInt(a, n).value >= 0 <==> AtMost(Int(n), a))
  {
  }

  /** `min(n, v)` fails exactly on a datetime; otherwise it is one of its arguments and
      at most both of them. */
  lemma MinIsLower(n: int, v: Value)
    ensures Py2Min(n, v).Err? <==> v.DateTime?
    ensures Py2Min(n, v).Ok? ==>
      var r := Py2Min(n, v).value;
      (r == v || r == Int(n)) && AtMost(r, v) && AtMost(r, Int(n))
  {
  }

  /** `max(n, v)` fails exactly on a datetime; otherwise it is one of its arguments and
      at least both of them. */
  lemma MaxIsUpper(n: int, v: Value)
    ensures Py2Max(n, v).Err? <==> v.DateTime?
    ensures Py2Max(n, v).Ok? ==>
      var r := Py2Max(n, v).value;
      (r == v || r == Int(n)) && AtMost(v, r) && AtMost(Int(n), r)
  {
  }

  // ---------------------------------------------------------------------------
  // The root node

  /** The root element once `limit` and `offset` have been set in its dict. */
  function Prepared(query: Value): Result<Value>
  {
    if !ShapeOf(query).Dict? then Err(AttributeError)
    else
      var d := ShapeOf(query).entries;
      var limit :- Py2Min(MaxLimit, GetOr(d, LimitKey, Int(DefaultLimit)));
      var d := Put(d, LimitKey, limit);
      var offset :- Py2Max(0, GetOr(d, OffsetKey, Int(0)));
      Ok(WithShape(query, Dict(Put(d, OffsetKey, offset))))
  }

  /** `run(query)`: the root query, an `EntityQuery` without parent or name. */
  function RootQuery(query: Value): Result<QueryTree>
  {
    var el :- Prepared(query);
    BuildObject(Entity, Null, [], None, el)
  }

  /** A limit that is a number, a string, a list or a dict ends up a number of at most
      1000; one below 1000 is kept; only None, the "no limit" of the query library,
      is let through. */
  lemma LimitCapped(v: Value)
    requires !v.DateTime?
    ensures var r := Py2Min(MaxLimit, v).value;
      && (v.Null? <==> r.Null?)
      && (!v.Null? ==> TypeRank(r) == 1 && Num(r) <= MaxLimit as real)
      && (TypeRank(v) == 1 && Num(v) < MaxLimit as real ==> r == v)
  {
  }

  /** An offset ends up a number that is not negative, or a string, list or dict that
      was given; a positive number is kept. */
  lemma OffsetFloored(v: Value)
    requires !v.DateTime?
    ensures var r := Py2Max(0, v).value;
      && (TypeRank(r) == 1 ==> Num(r) >= 0.0)
      && !r.Null?
      && (TypeRank(v) == 1 && Num(v) > 0.0 ==> r == v)
      && (TypeRank(v) == 2 ==> r == v)
  {
  }

  /** Preparing the root raises AttributeError when its value is not a dict (`.get`),
      and TypeError when `limit` or `offset` is a datetime. */
  lemma PreparedFails(query: Value)
    ensures !ShapeOf(query).Dict? ==> Prepared(query) == Err(AttributeError)
    ensures ShapeOf(query).Dict? ==>
      var d := ShapeOf(query).entries;
      (Prepared(query).Err? <==> GetOr(d, LimitKey, Null).DateTime? || GetOr(d, OffsetKey, Null).DateTime?)
  {
    if ShapeOf(query).Dict? {
      var d := ShapeOf(query).entries;
      var v := GetOr(d, LimitKey, Int(DefaultLimit));
      if !v.DateTime? {
        var limit := Py2Min(MaxLimit, v).value;
        assert Get(Put(d, LimitKey, limit), OffsetKey) == Get(d, OffsetKey);
      }
    }
  }

  /** The prepared root keeps its shape and its other entries, holds the capped limit,
      and holds the floored offset. */
  lemma PreparedEntries(query: Value)
    requires Prepared(query).Ok?
    ensures var el := Prepared(query).value;
      var d := ShapeOf(query).entries;
      && IsListShaped(el) == IsListShaped(query)
      && ShapeOf(el).Dict?
      && Get(ShapeOf(el).entries, LimitKey) == Some(Py2Min(MaxLimit, GetOr(d, LimitKey, Int(DefaultLimit))).value)
      && Get(ShapeOf(el).entries, OffsetKey) == Some(Py2Max(0, GetOr(d, OffsetKey, Int(0))).value)
      && forall k :: k != LimitKey && k != OffsetKey ==> Get(ShapeOf(el).entries, k) == Get(d, k)
  {
    var d := ShapeOf(query).entries;
    var limit := Py2Min(MaxLimit, GetOr(d, LimitKey, Int(DefaultLimit))).value;
    assert Get(Put(d, LimitKey, limit), OffsetKey) == Get(d, OffsetKey);
  }

  /** The first two statements of `run(query)`: the root node's dict is changed in
      place. */
  method Prepare(node: QueryNode) returns (r: Outcome)
    modifies node
    ensures match Prepared(old(node.el))
      case Ok(el) => r == Pass && node.el == el
      case Err(x) => r == Fail(x)
  {
    ghost var query := node.el;
    var v := node.Value();
    if !v.Dict? {
      return Fail(AttributeError);
    }
    var limit := Py2Min(MaxLimit, GetOr(v.entries, LimitKey, Int(DefaultLimit)));
    if limit.Err? {
      return Fail(limit.error);
    }
    ghost var a := Dict(Put(v.entries, LimitKey, limit.value));
    node.el := SetEntry(node.el, LimitKey, limit.value);
    WithShapeTwice(query, a, a);
    v := node.Value();
    assert v == a;
    var offset := Py2Max(0, GetOr(v.entries, OffsetKey, Int(0)));
    if offset.Err? {
      return Fail(offset.error);
    }
    ghost var b := Dict(Put(v.entries, OffsetKey, offset.value));
    node.el := SetEntry(node.el, OffsetKey, offset.value);
    WithShapeTwice(query, a, b);
    r := Pass;
  }

  /** `run(query)`, statement by statement: the root node is changed in place and then
      given to the root query's constructor. */
  method Run(query: Value) returns (r: Result<QueryTree>)
    ensures r == RootQuery(query)
  {
    var node := new QueryNode(Null, query);
    var ok := Prepare(node);
    if ok.Fail? {
      return Err(ok.error);
    }
    r := NewObjectQuery(Entity, Null, [], None, node);
  }
}
