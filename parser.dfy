/** grano/ql/parser.py: `QueryNode`, a shape-driven view of one raw query value.
    The functions below give the node's properties on its element `el`; the
    class `QueryNode` holds a mutable element and answers through them. */
module Parser {
  import opened PyValue

  /** `as_list`: the element is a list or tuple, so the caller wants many results. */
  predicate IsListShaped(el: Value)
  {
    el.List?
  }

  /** `value`: the first item of a list (None for an empty one), otherwise the element. */
  function ShapeOf(el: Value): Value
  {
    if el.List? then
      if |el.items| > 0 then el.items[0] else Null
    else el
  }

  /** The value is no deeper than its element. */
  lemma ShapeDepth(el: Value)
    ensures Depth(ShapeOf(el)) <= Depth(el)
  {
    if el.List? && |el.items| > 0 {
      ItemDepth(el.items, 0);
    }
  }

  /** `is_leaf`: the shape is not a dict. */
  predicate IsLeafEl(el: Value)
  {
    !ShapeOf(el).Dict?
  }

  /** A child `QueryNode(k, v)` as `children` yields it. */
  datatype Node = Node(name: Value, el: Value)

  /** `children`: one node per entry of the shape dict, in iteration order. */
  function ChildrenOf(el: Value): seq<Node>
  {
    if IsLeafEl(el) then [] else NodesOf(ShapeOf(el).entries)
  }

  /** `QueryNode(k, v) for k, v in d.items()` */
  function NodesOf(d: seq<Entry>): seq<Node>
  {
    if d == [] then [] else [Node(d[0].key, d[0].val)] + NodesOf(d[1..])
  }

  /** The `i`-th node is made from the `i`-th entry. */
  lemma {:induction false} NodeAt(d: seq<Entry>, i: nat)
    requires i < |d|
    ensures |NodesOf(d)| == |d| && NodesOf(d)[i] == Node(d[i].key, d[i].val)
  {
    if i > 0 {
      NodeAt(d[1..], i - 1);
    } else {
      NodesCount(d);
    }
  }

  lemma {:induction false} NodesCount(d: seq<Entry>)
    ensures |NodesOf(d)| == |d|
  {
    if d != [] {
      NodesCount(d[1..]);
    }
  }

  /** The element after its shape has been replaced by `v`: a list keeps its other items. */
  function WithShape(el: Value, v: Value): Value
  {
    if el.List? && |el.items| > 0 then List(el.items[0 := v]) else v
  }

  /** `update(v)`: `el[0] = v` on a list, which raises IndexError when it is empty;
      `el = v` otherwise. */
  function UpdatedEl(el: Value, v: Value): Result<Value>
  {
    if el.List? && |el.items| == 0 then Err(IndexError) else Ok(WithShape(el, v))
  }

  /** After `update(v)` the node's value is `v` (when `v` itself is not a list that a
      rebinding would make the new element) and its cardinality is unchanged; only
      item 0 of a list is replaced, and only an empty list refuses. */
  lemma UpdateSetsValue(el: Value, v: Value)
    ensures UpdatedEl(el, v).Err? <==> el == List([])
    ensures UpdatedEl(el, v).Ok? ==>
      var e := UpdatedEl(el, v).value;
      && (el.List? || !v.List? ==> ShapeOf(e) == v)
      && (el.List? || !v.List? ==> IsListShaped(e) == IsListShaped(el))
      && (el.List? ==> |e.items| == |el.items| && e.items[1..] == el.items[1..])
      && (!el.List? ==> e == v)
  {
  }

  /** Changing the shape dict of a node in place and reading it back agree. */
  lemma WithShapeShapeOf(el: Value)
    requires el != List([])
    ensures WithShape(el, ShapeOf(el)) == el
    ensures forall v: Value :: el.List? || !v.List? ==> ShapeOf(WithShape(el, v)) == v
  {
  }

  /** Replacing the shape twice is replacing it once. */
  lemma WithShapeTwice(el: Value, a: Value, b: Value)
    requires el.List? ==> el != List([])
    requires !el.List? ==> !a.List?
    ensures WithShape(WithShape(el, a), b) == WithShape(el, b)
    ensures ShapeOf(WithShape(el, a)) == a
  {
  }

  /** `children` of a leaf is empty; otherwise there is one child per key, named by the
      key and holding that key's value. */
  lemma {:induction false} ChildrenMatchKeys(el: Value)
    ensures IsLeafEl(el) ==> ChildrenOf(el) == []
    ensures !IsLeafEl(el) ==>
      var d := ShapeOf(el).entries;
      && |ChildrenOf(el)| == |d|
      && (forall c :: c in ChildrenOf(el) ==> Entry(c.name, c.el) in d)
      && (forall e :: e in d ==> Node(e.key, e.val) in ChildrenOf(el))
      && (UniqueKeys(d) ==> forall c :: c in ChildrenOf(el) ==> Get(d, c.name) == Some(c.el))
  {
    if !IsLeafEl(el) {
      var d := ShapeOf(el).entries;
      var cs := ChildrenOf(el);
      NodesCount(d);
      forall c | c in cs ensures Entry(c.name, c.el) in d {
        var i :| 0 <= i < |cs| && cs[i] == c;
        NodeAt(d, i);
        assert d[i] == Entry(c.name, c.el);
      }
      forall e | e in d ensures Node(e.key, e.val) in cs {
        var i :| 0 <= i < |d| && d[i] == e;
        NodeAt(d, i);
        assert cs[i] == Node(e.key, e.val);
      }
      if UniqueKeys(d) {
        forall c | c in cs ensures Get(d, c.name) == Some(c.el) {
          var i :| 0 <= i < |cs| && cs[i] == c;
          NodeAt(d, i);
          GetAt(d, i);
        }
      }
    }
  }

  /** `QueryNode(name, el)`: the named node whose element `update` replaces in place. */
  class QueryNode {
    var name: Value
    var el: Value

    constructor (name: Value, el: Value)
      ensures this.name == name && this.el == el
    {
      this.name := name;
      this.el := el;
    }

    /** `as_list` */
    predicate AsList()
      reads this
    {
      IsListShaped(el)
    }

    /** `value` */
    function Value(): Value
      reads this
    {
      ShapeOf(el)
    }

    /** `is_leaf` */
    predicate IsLeaf()
      reads this
    {
      IsLeafEl(el)
    }

    /** `children` */
    function Children(): seq<Node>
      reads this
    {
      ChildrenOf(el)
    }

    /** `update(value)` */
    method Update(v: Value) returns (r: Outcome)
      modifies this
      ensures name == old(name)
      ensures match UpdatedEl(old(el), v)
        case Ok(e) => r == Pass && el == e
        case Err(x) => r == Fail(x) && el == old(el)
    {
      if AsList() {
        if |el.items| == 0 {
          return Fail(IndexError);
        }
        el := List(el.items[0 := v]);
      } else {
        el := v;
      }
      r := Pass;
    }
  }
}
