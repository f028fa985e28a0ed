/** The fixed registry of query classes in grano/ql/query.py: each class's field model,
    its default fields, its string shorthand and the relationship its `join_parent`
    follows. Dictionary-valued class attributes are written in declaration order. */
module Registry {
  import opened PyValue

  datatype QueryClass =
    | Entity              // EntityQuery, the root
    | SourceEntity        // SourceEntityQuery
    | TargetEntity        // TargetEntityQuery
    | InboundRelation     // InboundRelationQuery
    | OutboundRelation    // OutboundRelationQuery
    | Project             // ProjectQuery
    | Author              // AuthorQuery
    | Schema              // SchemaQuery
    | Schemata            // SchemataQuery
    | EntityProperty      // EntityPropertyQuery
    | RelationProperty    // RelationPropertyQuery
    | EntityProperties    // EntityPropertiesQuery
    | RelationProperties  // RelationPropertiesQuery

  /** The query class a model entry instantiates. */
  datatype Kind =
    | Field                          // FieldQuery
    | Object(cls: QueryClass)        // an ObjectQuery subclass
    | Properties(cls: QueryClass)    // a PropertiesQuery subclass

  datatype Descriptor = Descriptor(name: string, kind: Kind)

  const Star := Str("*")
  const IdKey := Str("id")
  const NameKey := Str("name")
  const ValueKey := Str("value")
  const ActiveKey := Str("active")
  const LimitKey := Str("limit")
  const OffsetKey := Str("offset")
  const ParentId := Str("__parent_id")

  /** `EXTRA_FIELDS`: directives a level accepts without a child query. */
  const ExtraFields: seq<string> := ["limit", "offset", "sort", "optional"]

  predicate IsExtra(k: Value)
  {
    k.Str? && k.s in ExtraFields
  }

  predicate IsEntity(cls: QueryClass)
  {
    cls == Entity || cls == SourceEntity || cls == TargetEntity
  }

  predicate IsRelation(cls: QueryClass)
  {
    cls == InboundRelation || cls == OutboundRelation
  }

  predicate IsProperty(cls: QueryClass)
  {
    cls == EntityProperty || cls == RelationProperty
  }

  predicate IsPropertiesStub(cls: QueryClass)
  {
    cls == EntityProperties || cls == RelationProperties
  }

  /** `PropertyQuery.value_columns`, with the type each column holds. */
  datatype ColumnType = StringType | DateTimeType | IntegerType | FloatType | BooleanType

  const StringColumn := "value_string"
  const DateTimeColumn := "value_datetime"
  const IntegerColumn := "value_integer"
  const FloatColumn := "value_float"
  const BooleanColumn := "value_boolean"

  const ValueColumns: seq<(string, ColumnType)> := [
    (StringColumn, StringType),
    (DateTimeColumn, DateTimeType),
    (IntegerColumn, IntegerType),
    (FloatColumn, FloatType),
    (BooleanColumn, BooleanType)
  ]

  predicate IsValueColumn(k: Value)
  {
    exists i :: 0 <= i < |ValueColumns| && k == Str(ValueColumns[i].0)
  }

  /** `sys.maxint` of a 64-bit Python 2: a larger integer is a `long`, not an `int`. */
  const MaxInt := 0x7fff_ffff_ffff_ffff

  /** The integers that are a Python 2 `int`. */
  predicate IsMachineInt(i: int)
  {
    -MaxInt - 1 <= i <= MaxInt
  }

  /** `isinstance(v, type_)` under Python 2, where `bool` is a subclass of `int` and a
      `long` is not an `int`. */
  predicate IsInstance(v: Value, t: ColumnType)
  {
    match t
    case StringType => v.Str?
    case DateTimeType => v.DateTime?
    case IntegerType => (v.Int? && IsMachineInt(v.i)) || v.Bool?
    case FloatType => v.Float?
    case BooleanType => v.Bool?
  }

  /** The column types that accept each kind of value: a bool is both a `bool` and an
      `int`, an integer within `sys.maxint` only an `int`, and a `long`, None, a list or
      a dict no column type at all. */
  lemma InstanceTypes(v: Value)
    ensures v.Bool? ==> forall t :: IsInstance(v, t) <==> t == BooleanType || t == IntegerType
    ensures v.Int? ==> forall t :: IsInstance(v, t) <==> t == IntegerType && IsMachineInt(v.i)
    ensures v.Float? ==> forall t :: IsInstance(v, t) <==> t == FloatType
    ensures v.Str? ==> forall t :: IsInstance(v, t) <==> t == StringType
    ensures v.DateTime? ==> forall t :: IsInstance(v, t) <==> t == DateTimeType
    ensures v.Null? || v.List? || v.Dict? ==> forall t :: !IsInstance(v, t)
  {
  }

  const EntityModel: seq<Descriptor> := [
    Descriptor("id", Field),
    Descriptor("created_at", Field),
    Descriptor("updated_at", Field),
    Descriptor("status", Field),
    Descriptor("project", Object(Project)),
    Descriptor("schemata", Object(Schemata)),
    Descriptor("author", Object(Author)),
    Descriptor("inbound", Object(InboundRelation)),
    Descriptor("outbound", Object(OutboundRelation)),
    Descriptor("properties", Properties(EntityProperties))
  ]

  /** `RelationQuery.model`, shared by both relation subclasses, after the two
      module-level assignments have added `source` and `target` to it. */
  const RelationModel: seq<Descriptor> := [
    Descriptor("id", Field),
    Descriptor("project", Object(Project)),
    Descriptor("author", Object(Author)),
    Descriptor("schema", Object(Schema)),
    Descriptor("properties", Properties(RelationProperties)),
    Descriptor("created_at", Field),
    Descriptor("updated_at", Field),
    Descriptor("source", Object(SourceEntity)),
    Descriptor("target", Object(TargetEntity))
  ]

  const ProjectModel: seq<Descriptor> := [
    Descriptor("id", Field), Descriptor("slug", Field), Descriptor("label", Field),
    Descriptor("created_at", Field), Descriptor("updated_at", Field)
  ]

  const AuthorModel: seq<Descriptor> := [
    Descriptor("id", Field), Descriptor("login", Field), Descriptor("full_name", Field),
    Descriptor("created_at", Field), Descriptor("updated_at", Field)
  ]

  const SchemaModel: seq<Descriptor> := [
    Descriptor("id", Field), Descriptor("name", Field), Descriptor("label", Field),
    Descriptor("created_at", Field), Descriptor("updated_at", Field)
  ]

  const PropertyModel: seq<Descriptor> := [
    Descriptor("id", Field), Descriptor("name", Field),
    Descriptor(StringColumn, Field), Descriptor(DateTimeColumn, Field),
    Descriptor(IntegerColumn, Field), Descriptor(FloatColumn, Field),
    Descriptor(BooleanColumn, Field), Descriptor("source_url", Field),
    Descriptor("active", Field)
  ]

  /** `model`: the fields a class knows; the properties stubs have none. */
  function Model(cls: QueryClass): seq<Descriptor>
  {
    if IsEntity(cls) then EntityModel
    else if IsRelation(cls) then RelationModel
    else if cls == Project then ProjectModel
    else if cls == Author then AuthorModel
    else if cls == Schema || cls == Schemata then SchemaModel
    else if IsProperty(cls) then PropertyModel
    else []
  }

  /** `default_fields`: what a `*: None` wildcard expands to. */
  function Defaults(cls: QueryClass): seq<string>
  {
    if IsEntity(cls) then ["id", "status", "properties", "project"]
    else if IsRelation(cls) then ["id", "project"]
    else if cls == Project then ["slug", "label"]
    else if cls == Author then ["login", "full_name"]
    else if cls == Schema || cls == Schemata then ["name", "label"]
    else if IsProperty(cls) then
      [StringColumn, DateTimeColumn, IntegerColumn, FloatColumn, BooleanColumn, "source_url"]
    else []
  }

  /** The field a bare string stands for in `patch_node`, for the classes that have one. */
  function Shorthand(cls: QueryClass): Option<string>
  {
    if cls == Project then Some("slug")
    else if cls == Author then Some("login")
    else if cls == Schema || cls == Schemata then Some("name")
    else None
  }

  /** The parent relationship `join_parent` follows; the root entity and the
      properties stubs define none. */
  function JoinTag(cls: QueryClass): Option<string>
  {
    match cls
    case Project => Some("project")
    case Author => Some("author")
    case Schema => Some("schema")
    case Schemata => Some("schemata")
    case EntityProperty => Some("properties")
    case RelationProperty => Some("properties")
    case InboundRelation => Some("inbound")
    case OutboundRelation => Some("outbound")
    case SourceEntity => Some("source")
    case TargetEntity => Some("target")
    case _ => None
  }

  /** `child_cls` of a properties stub. */
  function PropertyClass(cls: QueryClass): (r: QueryClass)
    ensures IsProperty(r)
  {
    if cls == RelationProperties then RelationProperty else EntityProperty
  }

  /** The entry of a class's model named `k`, if any. */
  function Lookup(m: seq<Descriptor>, k: Value): (r: Option<Kind>)
  {
    if m == [] then None
    else if Str(m[0].name) == k then Some(m[0].kind)
    else Lookup(m[1..], k)
  }

  /** In a model that names each field once, looking up the name of entry `i` finds
      entry `i`'s kind. */
  lemma {:induction false} LookupAt(m: seq<Descriptor>, i: nat)
    requires NamesUnique(m) && i < |m|
    ensures Lookup(m, Str(m[i].name)) == Some(m[i].kind)
  {
    if i > 0 {
      assert m[0].name != m[i].name;
      assert m[1..][i - 1] == m[i];
      assert NamesUnique(m[1..]) by {
        forall a, b | 0 <= a < b < |m[1..]| ensures m[1..][a].name != m[1..][b].name {
          assert m[1..][a] == m[a + 1] && m[1..][b] == m[b + 1];
        }
      }
      LookupAt(m[1..], i - 1);
    }
  }

  /** Nesting rank of a class, used to show that building a query terminates. */
  function Rank(cls: QueryClass): nat
  {
    if IsEntity(cls) then 12
    else if IsPropertiesStub(cls) then 11
    else if IsRelation(cls) then 5
    else 0
  }

  predicate NamesUnique(m: seq<Descriptor>)
  {
    forall i, j :: 0 <= i < j < |m| ==> m[i].name != m[j].name
  }

  /** Both relation models end up with `source` and `target`, because the two
      module-level assignments write into the one dict the subclasses share. */
  lemma RelationModelsHaveBothEnds(cls: QueryClass)
    requires IsRelation(cls)
    ensures Descriptor("source", Object(SourceEntity)) in Model(cls)
    ensures Descriptor("target", Object(TargetEntity)) in Model(cls)
  {
    assert Model(cls)[7] == Descriptor("source", Object(SourceEntity));
    assert Model(cls)[8] == Descriptor("target", Object(TargetEntity));
  }

  /** Every model names each field once and names no directive. */
  lemma ModelWellFormed(cls: QueryClass)
    ensures NamesUnique(Model(cls))
    ensures forall i :: 0 <= i < |Model(cls)| ==> !IsExtra(Str(Model(cls)[i].name))
  {
    if IsEntity(cls) {
      EntityModelWellFormed();
    } else if IsRelation(cls) {
      RelationModelWellFormed();
    } else if cls == Project {
      ProjectModelWellFormed();
    } else if cls == Author {
      AuthorModelWellFormed();
    } else if cls == Schema || cls == Schemata {
      SchemaModelWellFormed();
    } else if IsProperty(cls) {
      PropertyModelWellFormed();
    }
  }

  predicate NoExtraNames(m: seq<Descriptor>)
  {
    forall i :: 0 <= i < |m| ==> !IsExtra(Str(m[i].name))
  }

  lemma EntityModelWellFormed()
    ensures NamesUnique(EntityModel) && NoExtraNames(EntityModel)
  {
  }

  lemma RelationModelWellFormed()
    ensures NamesUnique(RelationModel) && NoExtraNames(RelationModel)
  {
  }

  lemma ProjectModelWellFormed()
    ensures NamesUnique(ProjectModel) && NoExtraNames(ProjectModel)
  {
  }

  lemma AuthorModelWellFormed()
    ensures NamesUnique(AuthorModel) && NoExtraNames(AuthorModel)
  {
  }

  lemma SchemaModelWellFormed()
    ensures NamesUnique(SchemaModel) && NoExtraNames(SchemaModel)
  {
  }

  lemma PropertyModelWellFormed()
    ensures NamesUnique(PropertyModel) && NoExtraNames(PropertyModel)
  {
  }

  /** A nested object or properties entry named among the defaults has a smaller
      rank than the class that names it. */
  lemma DefaultChildRankLess(cls: QueryClass, i: nat)
    requires i < |Model(cls)| && !Model(cls)[i].kind.Field? && Model(cls)[i].name in Defaults(cls)
    ensures Rank(Model(cls)[i].kind.cls) < Rank(cls)
  {
  }

  /** `id` is a plain field in every model, and only entities and relations have
      nested object or properties entries. */
  lemma ModelKinds(cls: QueryClass, i: nat)
    requires i < |Model(cls)|
    ensures Model(cls)[i].name == "id" ==> Model(cls)[i].kind.Field?
    ensures !Model(cls)[i].kind.Field? ==> IsEntity(cls) || IsRelation(cls)
    ensures Model(cls)[i].kind.Properties? ==> IsPropertiesStub(Model(cls)[i].kind.cls)
    ensures Model(cls)[i].kind.Object? ==> !IsPropertiesStub(Model(cls)[i].kind.cls) && !IsProperty(Model(cls)[i].kind.cls)
  {
  }
}
