/** `belongsTo(options)`: how a relation's property name, foreign-key column
    and accessor variant are resolved from the options, before the accessor
    property is defined on the declaring model. */
module Registration {
  import opened Records

  /** The part of the target model registration reads. */
  datatype TargetInfo = TargetInfo(tableName: string)

  /** Options as given; `None` is an option left `undefined`, which is the
      only value a JavaScript default parameter replaces. */
  datatype Options = Options(
    model: TargetInfo,
    alias: Option<string>,
    foreignKey: Option<string>,
    immutable: Option<bool>)

  /** `BelongsTo` offers only `get`; `BelongsToMutable` extends it. */
  datatype Variant = ReadOnly | Mutable

  datatype Method = Get | Build | Set | GetOrCreate | Create | CreateOrUpdate | Update | Remove

  /** The resolved relation: the property name (`as`), the foreign-key
      column, and the accessor class each property read constructs. */
  datatype Relation = Relation(alias: string, foreignKey: string, variant: Variant)

  function Methods(v: Variant): (ms: set<Method>)
    ensures Get in ms
    ensures v == ReadOnly <==> ms == {Get}
  {
    match v
    case ReadOnly => {Get}
    case Mutable => {Get, Build, Set, GetOrCreate, Create, CreateOrUpdate, Update, Remove}
  }

  const Suffix := "_id"

  function Resolve(opts: Options): (r: Relation)
    ensures opts.alias.Some? ==> r.alias == opts.alias.value
    ensures opts.alias.None? ==> r.alias == opts.model.tableName
    ensures opts.foreignKey.Some? ==> r.foreignKey == opts.foreignKey.value
    ensures opts.foreignKey.None? ==> r.foreignKey == r.alias + Suffix
    ensures r.variant == ReadOnly <==> opts.immutable == Some(true)
  {
    var alias := if opts.alias.Some? then opts.alias.value else opts.model.tableName;
    var foreignKey := if opts.foreignKey.Some? then opts.foreignKey.value else alias + Suffix;
    var immutable := if opts.immutable.Some? then opts.immutable.value else false;
    Relation(alias, foreignKey, if immutable then ReadOnly else Mutable)
  }

  /** With only the model given, the relation is named after the model's
      table, its key column is that name followed by `_id`, and the accessor
      is the mutable one; the property name can be read back off the key. */
  lemma DefaultsFollowTableName(model: TargetInfo)
    ensures
      var r := Resolve(Options(model, None, None, None));
      && r.alias == model.tableName
      && r.foreignKey[..|r.alias|] == r.alias
      && r.foreignKey[|r.alias|..] == "_id"
      && Methods(r.variant) == {Get, Build, Set, GetOrCreate, Create, CreateOrUpdate, Update, Remove}
  {
    var r := Resolve(Options(model, None, None, None));
    assert r.foreignKey == model.tableName + "_id";
  }

  /** A read-only relation exposes `get` and nothing else, whatever it is
      called and whichever column it reads. */
  lemma ImmutableOffersOnlyGet(opts: Options)
    requires opts.immutable == Some(true)
    ensures Methods(Resolve(opts).variant) == {Get}
  {
  }
}
