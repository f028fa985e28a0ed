/** Result objects of grano/ql/query.py: `ObjectQuery._make_object`, which combines a
    level's node dict with one database row, and `PropertyQuery._make_object`, which
    collapses the typed value columns of a property row into `value`. */
module Rows {
  import opened PyValue
  import opened Parser
  import opened Registry

  /** A database row: its labelled columns, in order. */
  type Record = seq<Entry>

  /** The value of the last pair with key `k`: what `dict(pairs)[k]` holds. */
  function LastGet(ps: seq<Entry>, k: Value): Option<Value>
  {
    if ps == [] then None
    else if ps[|ps| - 1].key == k then Some(ps[|ps| - 1].val)
    else LastGet(ps[..|ps| - 1], k)
  }

  /** `dict(pairs)`: later pairs overwrite earlier ones. */
  function FromPairs(ps: seq<Entry>): (r: seq<Entry>)
    ensures forall k :: Get(r, k) == LastGet(ps, k)
  {
    if ps == [] then []
    else Put(FromPairs(ps[..|ps| - 1]), ps[|ps| - 1].key, ps[|ps| - 1].val)
  }

  /** In a dict whose keys are unique the last pair for a key is the only one. */
  lemma {:induction false} LastGetUnique(d: seq<Entry>, k: Value)
    requires UniqueKeys(d)
    ensures LastGet(d, k) == Get(d, k)
  {
    if d != [] {
      var init := d[..|d| - 1];
      assert UniqueKeys(init);
      LastGetUnique(init, k);
      if d[|d| - 1].key == k {
        forall i | 0 <= i < |init| ensures init[i].key != k {
          assert d[i].key != d[|d| - 1].key;
        }
        GetNone(init, k);
        GetAppendLast(init, d[|d| - 1], k);
        assert d == init + [d[|d| - 1]];
      } else {
        GetAppendLast(init, d[|d| - 1], k);
        assert d == init + [d[|d| - 1]];
      }
    }
  }

  lemma {:induction false} GetNone(d: seq<Entry>, k: Value)
    requires forall i :: 0 <= i < |d| ==> d[i].key != k
    ensures Get(d, k) == None
  {
    if d != [] {
      GetNone(d[1..], k);
    }
  }

  /** Looking up in a dict with one more entry at the end. */
  lemma {:induction false} GetAppendLast(d: seq<Entry>, e: Entry, k: Value)
    ensures Get(d + [e], k) == if Get(d, k).Some? then Get(d, k) else if e.key == k then Some(e.val) else None
  {
    if d != [] {
      assert (d + [e])[1..] == d[1..] + [e];
      GetAppendLast(d[1..], e, k);
    }
  }

  /** `[(k, v) for (k, v) in d.items() if k != '*']` */
  function WithoutStar(d: seq<Entry>): (r: seq<Entry>)
    ensures forall k :: k != Star ==> LastGet(r, k) == LastGet(d, k)
    ensures LastGet(r, Star) == None
  {
    if d == [] then []
    else
      var init := WithoutStar(d[..|d| - 1]);
      var last := d[|d| - 1];
      if last.key == Star then init else init + [last]
  }

  /** `for node in self.node.children: if node.value is None: data[node.name] = res.get(node.name)`
      from the `j`-th node child on. */
  function FillNulls(data: seq<Entry>, nodes: seq<Node>, j: nat, res: seq<Entry>): seq<Entry>
    requires j <= |nodes|
    decreases |nodes| - j
  {
    if j == |nodes| then data
    else
      var n := nodes[j];
      FillNulls(if ShapeOf(n.el) == Null then Put(data, n.name, GetOr(res, n.name, Null)) else data, nodes, j + 1, res)
  }

  /** Some node child from the `j`-th on is named `k` and has the value None. */
  predicate NullNode(nodes: seq<Node>, j: nat, k: Value)
  {
    exists m :: j <= m < |nodes| && nodes[m].name == k && ShapeOf(nodes[m].el) == Null
  }

  /** Filling the None-valued node children sets each of them to its column and leaves
      every other key as it was. */
  lemma {:induction false} FillNullsSpec(data: seq<Entry>, nodes: seq<Node>, j: nat, res: seq<Entry>)
    requires j <= |nodes|
    ensures forall k ::
      Get(FillNulls(data, nodes, j, res), k) == (if NullNode(nodes, j, k) then Some(GetOr(res, k, Null)) else Get(data, k))
    decreases |nodes| - j
  {
    if j < |nodes| {
      var n := nodes[j];
      var next := if ShapeOf(n.el) == Null then Put(data, n.name, GetOr(res, n.name, Null)) else data;
      FillNullsSpec(next, nodes, j + 1, res);
      forall k ensures Get(FillNulls(data, nodes, j, res), k) ==
        if NullNode(nodes, j, k) then Some(GetOr(res, k, Null)) else Get(data, k)
      {
        if NullNode(nodes, j + 1, k) {
          var m :| j + 1 <= m < |nodes| && nodes[m].name == k && ShapeOf(nodes[m].el) == Null;
          assert NullNode(nodes, j, k);
        } else if NullNode(nodes, j, k) {
          var m :| j <= m < |nodes| && nodes[m].name == k && ShapeOf(nodes[m].el) == Null;
          if m != j {
            assert NullNode(nodes, j + 1, k);
          }
        }
      }
    }
  }

  /** `ObjectQuery._make_object(record)` with the node element `el`: the node's
      entries but `*`, and, given a row, its `__parent_id` and a column for every node
      child whose value is None. */
  function MakeObject(el: Value, record: Option<Record>): Result<seq<Entry>>
  {
    if !ShapeOf(el).Dict? then Err(AttributeError)
    else
      var data := FromPairs(WithoutStar(ShapeOf(el).entries));
      match record
      case None => Ok(data)
      case Some(rec) =>
        var res := FromPairs(rec);
        Ok(FillNulls(Put(data, ParentId, GetOr(res, ParentId, Null)), ChildrenOf(el), 0, res))
  }

  /** What the result object holds for the key `k`: the row's column for a None-valued
      node child and for `__parent_id`, nothing for `*`, and otherwise the node's own
      entry. */
  function ObjectField(el: Value, record: Option<Record>, k: Value): Option<Value>
    requires ShapeOf(el).Dict?
  {
    match record
    case Some(rec) =>
      if NullNode(ChildrenOf(el), 0, k) || k == ParentId then Some(match LastGet(rec, k) case Some(v) => v case None => Null)
      else if k == Star then None
      else LastGet(ShapeOf(el).entries, k)
    case None =>
      if k == Star then None else LastGet(ShapeOf(el).entries, k)
  }

  /** `_make_object` fails exactly on a node whose value is not a dict, and the object
      it makes holds, key by key, what `ObjectField` says. */
  lemma MakeObjectSpec(el: Value, record: Option<Record>)
    ensures MakeObject(el, record).Ok? <==> ShapeOf(el).Dict?
    ensures MakeObject(el, record).Ok? ==> forall k :: Get(MakeObject(el, record).value, k) == ObjectField(el, record, k)
  {
    if ShapeOf(el).Dict? && record.Some? {
      var data := FromPairs(WithoutStar(ShapeOf(el).entries));
      var res := FromPairs(record.value);
      FillNullsSpec(Put(data, ParentId, GetOr(res, ParentId, Null)), ChildrenOf(el), 0, res);
    }
  }

  /** `ObjectQuery._make_object`, building `data` with loops. */
  method MakeObjectNode(el: Value, record: Option<Record>) returns (r: Result<seq<Entry>>)
    ensures r == MakeObject(el, record)
  {
    if !ShapeOf(el).Dict? {
      return Err(AttributeError);
    }
    var d := ShapeOf(el).entries;
    var pairs: seq<Entry> := [];
    for i := 0 to |d|
      invariant pairs == WithoutStar(d[..i])
    {
      assert d[..i + 1][..i] == d[..i];
      if d[i].key != Star {
        pairs := pairs + [d[i]];
      }
    }
    assert d[..|d|] == d;
    var data := DictOf(pairs);
    if record.Some? {
      var res := DictOf(record.value);
      data := Put(data, ParentId, GetOr(res, ParentId, Null));
      var nodes := ChildrenOf(el);
      ghost var start := data;
      for j := 0 to |nodes|
        invariant FillNulls(data, nodes, j, res) == FillNulls(start, nodes, 0, res)
      {
        if ShapeOf(nodes[j].el) == Null {
          data := Put(data, nodes[j].name, GetOr(res, nodes[j].name, Null));
        }
      }
    }
    r := Ok(data);
  }

  /** `dict(pairs)`, inserting the pairs in order. */
  method DictOf(ps: seq<Entry>) returns (d: seq<Entry>)
    ensures d == FromPairs(ps)
  {
    d := [];
    for i := 0 to |ps|
      invariant d == FromPairs(ps[..i])
    {
      assert ps[..i + 1][..i] == ps[..i];
      d := Put(d, ps[i].key, ps[i].val);
    }
    assert ps[..|ps|] == ps;
  }

  // ---------------------------------------------------------------------------
  // PropertyQuery._make_object

  /** The `m`-th typed column's key. */
  function Col(m: nat): Value
    requires m < |ValueColumns|
  {
    Str(ValueColumns[m].0)
  }

  /** The typed columns from the `i`-th on. */
  predicate IsColumnFrom(k: Value, i: nat)
  {
    exists m :: i <= m < |ValueColumns| && k == Col(m)
  }

  /** The `m`-th typed column is in the row and is not None. */
  predicate IsSet(rec: seq<Entry>, m: nat)
    requires m < |ValueColumns|
  {
    HasKey(rec, Col(m)) && Get(rec, Col(m)).value != Null
  }

  /** The typed columns differ from each other and from `value`. */
  lemma ColumnsDistinct()
    ensures forall m :: 0 <= m < |ValueColumns| ==> Col(m) != ValueKey
    ensures forall m, n :: 0 <= m < n < |ValueColumns| ==> Col(m) != Col(n)
  {
  }

  /** The collapse pops every typed column from the `i`-th on and leaves every key
      but `value` that is not such a column alone. */
  lemma {:induction false} CollapseKeys(rec: seq<Entry>, i: nat)
    requires i <= |ValueColumns|
    ensures forall m :: i <= m < |ValueColumns| ==> !HasKey(Collapse(rec, i), Col(m))
    ensures forall k :: k != ValueKey && !IsColumnFrom(k, i) ==> Get(Collapse(rec, i), k) == Get(rec, k)
    decreases |ValueColumns| - i
  {
    if i < |ValueColumns| {
      ColumnsDistinct();
      var col := Col(i);
      assert !IsColumnFrom(col, i + 1);
      var next := CollapseNext(rec, i);
      CollapseKeys(next, i + 1);
      assert Get(Collapse(next, i + 1), col) == Get(next, col);
    }
  }

  /** No typed column from the `i`-th on is present: the loop changes nothing. */
  lemma {:induction false} CollapseAbsent(rec: seq<Entry>, i: nat)
    requires i <= |ValueColumns|
    requires forall m :: i <= m < |ValueColumns| ==> !HasKey(rec, Col(m))
    ensures Collapse(rec, i) == rec
    decreases |ValueColumns| - i
  {
    if i < |ValueColumns| {
      CollapseAbsent(rec, i + 1);
    }
  }

  /** With `value` present and every typed column from the `i`-th on None or absent,
      `value` stays as it is. */
  lemma {:induction false} CollapseKeepsValue(rec: seq<Entry>, i: nat)
    requires i <= |ValueColumns| && HasKey(rec, ValueKey)
    requires forall j :: i <= j < |ValueColumns| ==> !IsSet(rec, j)
    ensures Get(Collapse(rec, i), ValueKey) == Get(rec, ValueKey)
    decreases |ValueColumns| - i
  {
    if i < |ValueColumns| {
      NextColumns(rec, i);
      CollapseKeepsValue(CollapseNext(rec, i), i + 1);
    }
  }

  /** The typed columns present from the `i`-th on are all None: `value` ends up as it
      was, or None if it was missing. */
  lemma {:induction false} CollapseAllNone(rec: seq<Entry>, i: nat, m: nat)
    requires i <= m < |ValueColumns| && HasKey(rec, Col(m))
    requires forall j :: i <= j < |ValueColumns| ==> !IsSet(rec, j)
    ensures Get(Collapse(rec, i), ValueKey) == Some(GetOr(rec, ValueKey, Null))
    decreases |ValueColumns| - i
  {
    var next := CollapseNext(rec, i);
    NextColumns(rec, i);
    if HasKey(rec, Col(i)) {
      CollapseKeepsValue(next, i + 1);
    } else {
      CollapseAllNone(next, i + 1, m);
    }
  }

  /** The `m`-th typed column is the last one from the `i`-th on that is not None: it
      ends up as `value`. */
  lemma {:induction false} CollapseLastSet(rec: seq<Entry>, i: nat, m: nat)
    requires i <= m < |ValueColumns| && IsSet(rec, m)
    requires forall j :: m < j < |ValueColumns| ==> !IsSet(rec, j)
    ensures Get(Collapse(rec, i), ValueKey) == Get(rec, Col(m))
    decreases |ValueColumns| - i
  {
    var next := CollapseNext(rec, i);
    NextColumns(rec, i);
    if i < m {
      CollapseLastSet(next, i + 1, m);
    } else {
      CollapseKeepsValue(next, i + 1);
    }
  }

  /** One turn leaves the later typed columns as they were. */
  lemma NextColumns(rec: seq<Entry>, i: nat)
    requires i < |ValueColumns|
    ensures forall j :: i < j < |ValueColumns| ==> Get(CollapseNext(rec, i), Col(j)) == Get(rec, Col(j))
    ensures forall j :: i < j < |ValueColumns| ==> (IsSet(CollapseNext(rec, i), j) <==> IsSet(rec, j))
  {
    ColumnsDistinct();
  }

  /** One turn of that loop: a present column is popped, `value` is created as None if
      missing, and a column that is not None becomes `value`. */
  function CollapseNext(rec: seq<Entry>, i: nat): (r: seq<Entry>)
    requires i < |ValueColumns|
    ensures !HasKey(r, Col(i))
    ensures forall k :: k != ValueKey && k != Col(i) ==> Get(r, k) == Get(rec, k)
    ensures !HasKey(rec, Col(i)) ==> r == rec
    ensures HasKey(rec, Col(i)) ==>
      Get(r, ValueKey) == (if IsSet(rec, i) then Get(rec, Col(i)) else Some(GetOr(rec, ValueKey, Null)))
  {
    ColumnsDistinct();
    var col := Col(i);
    if !HasKey(rec, col) then rec
    else
      var r1 := if !HasKey(rec, ValueKey) then Put(rec, ValueKey, Null) else rec;
      var val := Get(r1, col).value;
      var r2 := Remove(r1, col);
      if val != Null then Put(r2, ValueKey, val) else r2
  }

  /** The loop over `value_columns` from the `i`-th column on. */
  function Collapse(rec: seq<Entry>, i: nat): seq<Entry>
    requires i <= |ValueColumns|
    decreases |ValueColumns| - i
  {
    if i == |ValueColumns| then rec else Collapse(CollapseNext(rec, i), i + 1)
  }

  /** What `PropertyQuery._make_object` does to the plain object: `active` is popped,
      then the typed columns are collapsed. */
  function PropertyRow(obj: seq<Entry>): seq<Entry>
  {
    Collapse(Remove(obj, ActiveKey), 0)
  }

  /** `PropertyQuery._make_object(record)` */
  function MakePropertyObject(el: Value, record: Option<Record>): Result<seq<Entry>>
  {
    var obj :- MakeObject(el, record);
    Ok(PropertyRow(obj))
  }

  /** A property object is made exactly when the plain object is. */
  lemma PropertyObjectFails(el: Value, record: Option<Record>)
    ensures MakePropertyObject(el, record).Ok? <==> ShapeOf(el).Dict?
    ensures MakePropertyObject(el, record).Ok? ==> MakePropertyObject(el, record).value == PropertyRow(MakeObject(el, record).value)
  {
    MakeObjectSpec(el, record);
  }

  /** A property row has no `active`. */
  lemma PropertyRowNoActive(obj: seq<Entry>)
    ensures !HasKey(PropertyRow(obj), ActiveKey)
  {
    CollapseKeys(Remove(obj, ActiveKey), 0);
    ColumnsDistinct();
    assert !IsColumnFrom(ActiveKey, 0);
  }

  /** A property row has no typed column. */
  lemma PropertyRowNoColumns(obj: seq<Entry>)
    ensures forall m :: 0 <= m < |ValueColumns| ==> !HasKey(PropertyRow(obj), Col(m))
  {
    CollapseKeys(Remove(obj, ActiveKey), 0);
  }

  /** A property row keeps every key but `active`, `value` and the typed columns. */
  lemma PropertyRowKeeps(obj: seq<Entry>, k: Value)
    requires k != ValueKey && k != ActiveKey && !IsValueColumn(k)
    ensures Get(PropertyRow(obj), k) == Get(obj, k)
  {
    CollapseKeys(Remove(obj, ActiveKey), 0);
  }

  /** Popping `active` leaves the typed columns as they were. */
  lemma ActiveNotColumn(obj: seq<Entry>)
    ensures forall m :: 0 <= m < |ValueColumns| ==> Get(Remove(obj, ActiveKey), Col(m)) == Get(obj, Col(m))
    ensures forall m :: 0 <= m < |ValueColumns| ==> (IsSet(Remove(obj, ActiveKey), m) <==> IsSet(obj, m))
  {
  }

  /** A property row with no typed column keeps its `value` as it was. */
  lemma PropertyValueUntouched(obj: seq<Entry>)
    requires forall m :: 0 <= m < |ValueColumns| ==> !HasKey(obj, Col(m))
    ensures Get(PropertyRow(obj), ValueKey) == Get(obj, ValueKey)
  {
    ActiveNotColumn(obj);
    CollapseAbsent(Remove(obj, ActiveKey), 0);
  }

  /** A property row whose typed columns are all None keeps its `value`, or gets None
      when it had none. */
  lemma PropertyValueNone(obj: seq<Entry>, m: nat)
    requires m < |ValueColumns| && HasKey(obj, Col(m))
    requires forall j :: 0 <= j < |ValueColumns| ==> !IsSet(obj, j)
    ensures Get(PropertyRow(obj), ValueKey) == Some(GetOr(obj, ValueKey, Null))
  {
    ActiveNotColumn(obj);
    CollapseAllNone(Remove(obj, ActiveKey), 0, m);
  }

  /** The last typed column of a property row that is not None becomes its `value`. */
  lemma PropertyValueLast(obj: seq<Entry>, m: nat)
    requires m < |ValueColumns| && IsSet(obj, m)
    requires forall j :: m < j < |ValueColumns| ==> !IsSet(obj, j)
    ensures Get(PropertyRow(obj), ValueKey) == Get(obj, Col(m))
  {
    ActiveNotColumn(obj);
    CollapseLastSet(Remove(obj, ActiveKey), 0, m);
  }

  /** `PropertyQuery._make_object`: the plain object, then the loop over the typed
      columns. */
  method MakePropertyObjectNode(el: Value, record: Option<Record>) returns (r: Result<seq<Entry>>)
    ensures r == MakePropertyObject(el, record)
  {
    var made := MakeObjectNode(el, record);
    if made.Err? {
      return made;
    }
    var row := PropertyRowNode(made.value);
    r := Ok(row);
  }

  /** `record.pop('active', None)` and the loop over `value_columns`. */
  method PropertyRowNode(obj: seq<Entry>) returns (rec: seq<Entry>)
    ensures rec == PropertyRow(obj)
  {
    rec := Remove(obj, ActiveKey);
    for i := 0 to |ValueColumns|
      invariant Collapse(rec, i) == PropertyRow(obj)
    {
      CollapseUnfold(rec, i);
      rec := CollapseColumn(rec, i);
    }
    CollapseUnfold(rec, |ValueColumns|);
  }

  lemma CollapseUnfold(rec: seq<Entry>, i: nat)
    requires i <= |ValueColumns|
    ensures Collapse(rec, i) == if i == |ValueColumns| then rec else Collapse(CollapseNext(rec, i), i + 1)
  {
  }

  /** One turn of the loop over `value_columns`. */
  method CollapseColumn(rec: seq<Entry>, i: nat) returns (r: seq<Entry>)
    requires i < |ValueColumns|
    ensures r == CollapseNext(rec, i)
  {
    r := rec;
    var col := Str(ValueColumns[i].0);
    if HasKey(r, col) {
      if !HasKey(r, ValueKey) {
        r := Put(r, ValueKey, Null);
      }
      var val := Get(r, col).value;
      r := Remove(r, col);
      if val != Null {
        r := Put(r, ValueKey, val);
      }
    }
  }
}
