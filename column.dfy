/** Column values: the storage types, the constraint set with its default
    expression, the add-column instruction and the fluent builder that makes
    one, with the type shortcuts (`uuid`, `varchar`, ...). All of these are
    values; the builder's setters take the builder and hand back a new one. */
module Column {
  import opened Results

  /** Available column types. `Varchar` carries its length; the program keeps
      it in a `usize`. */
  datatype ColumnType =
    | Uuid
    | Bool
    | Varchar(size: nat)
    | Real
    | Integer
    | Text
    | Timestamp
    | TimestampTz
    | Jsonb

  datatype DefaultConstraint = NoDefault | Plain(expr: string)

  datatype Constraints = Constraints(primary: bool, notNull: bool, unique: bool, default: DefaultConstraint)

  predicate NoConstraints(c: Constraints) {
    !c.primary && !c.notNull && !c.unique && c.default == NoDefault
  }

  /** `Constraints::new()`: no flag set and no default. */
  function NewConstraints(): (c: Constraints)
    ensures NoConstraints(c)
  {
    Constraints(false, false, false, NoDefault)
  }

  /** An add-column instruction. `withPrefix` marks a column added through the
      alter capability, whose definition starts with `ADD COLUMN`. */
  datatype ColumnAddChange = ColumnAddChange(name: string, ct: ColumnType, withPrefix: bool, constraints: Constraints)

  /** `ColumnAddChange::new`: the named column of the given type, without
      prefix and without constraints. */
  function NewColumnAddChange(name: string, ct: ColumnType): (c: ColumnAddChange)
    ensures c.name == name && c.ct == ct
    ensures !c.withPrefix && NoConstraints(c.constraints)
  {
    ColumnAddChange(name, ct, false, NewConstraints())
  }

  datatype ColumnAddBuilder = ColumnAddBuilder(inner: ColumnAddChange)

  /** A builder as every shortcut hands it out: the given name and type, no
      prefix, no constraints. */
  predicate IsFresh(b: ColumnAddBuilder, name: string, ct: ColumnType) {
    b.inner.name == name && b.inner.ct == ct && !b.inner.withPrefix && NoConstraints(b.inner.constraints)
  }

  function NewBuilder(name: string, ct: ColumnType): (b: ColumnAddBuilder)
    ensures IsFresh(b, name, ct)
  {
    ColumnAddBuilder(NewColumnAddChange(name, ct))
  }

  /** The builder's name, type and prefix flag are equal to those of `b`. */
  predicate SameColumn(r: ColumnAddBuilder, b: ColumnAddBuilder) {
    r.inner.name == b.inner.name && r.inner.ct == b.inner.ct && r.inner.withPrefix == b.inner.withPrefix
  }

  /** `.primary(v)`: sets the primary-key flag and changes nothing else. */
  function Primary(b: ColumnAddBuilder, primary: bool): (r: ColumnAddBuilder)
    ensures r.inner.constraints.primary == primary
    ensures SameColumn(r, b)
    ensures r.inner.constraints.notNull == b.inner.constraints.notNull
    ensures r.inner.constraints.unique == b.inner.constraints.unique
    ensures r.inner.constraints.default == b.inner.constraints.default
  {
    b.(inner := b.inner.(constraints := b.inner.constraints.(primary := primary)))
  }

  /** `.not_null(v)`: sets the not-null flag and changes nothing else. */
  function NotNull(b: ColumnAddBuilder, notNull: bool): (r: ColumnAddBuilder)
    ensures r.inner.constraints.notNull == notNull
    ensures SameColumn(r, b)
    ensures r.inner.constraints.primary == b.inner.constraints.primary
    ensures r.inner.constraints.unique == b.inner.constraints.unique
    ensures r.inner.constraints.default == b.inner.constraints.default
  {
    b.(inner := b.inner.(constraints := b.inner.constraints.(notNull := notNull)))
  }

  /** `.unique(v)`: sets the unique flag and changes nothing else. */
  function Unique(b: ColumnAddBuilder, unique: bool): (r: ColumnAddBuilder)
    ensures r.inner.constraints.unique == unique
    ensures SameColumn(r, b)
    ensures r.inner.constraints.primary == b.inner.constraints.primary
    ensures r.inner.constraints.notNull == b.inner.constraints.notNull
    ensures r.inner.constraints.default == b.inner.constraints.default
  {
    b.(inner := b.inner.(constraints := b.inner.constraints.(unique := unique)))
  }

  /** `.default(d)`: sets the default expression and changes nothing else. */
  function Default(b: ColumnAddBuilder, default: DefaultConstraint): (r: ColumnAddBuilder)
    ensures r.inner.constraints.default == default
    ensures SameColumn(r, b)
    ensures r.inner.constraints.primary == b.inner.constraints.primary
    ensures r.inner.constraints.notNull == b.inner.constraints.notNull
    ensures r.inner.constraints.unique == b.inner.constraints.unique
  {
    b.(inner := b.inner.(constraints := b.inner.constraints.(default := default)))
  }

  /** `.build()`: the instruction the builder holds. */
  function Build(b: ColumnAddBuilder): (c: ColumnAddChange)
    ensures c.name == b.inner.name && c.ct == b.inner.ct
    ensures c.withPrefix == b.inner.withPrefix && c.constraints == b.inner.constraints
  {
    b.inner
  }

  /** One setter call of the fluent chain, with its argument. */
  datatype SetterCall =
    | SetPrimary(primary: bool)
    | SetNotNull(notNull: bool)
    | SetUnique(unique: bool)
    | SetDefault(default: DefaultConstraint)

  /** Both calls set the same constraint. */
  predicate SameField(c1: SetterCall, c2: SetterCall) {
    || (c1.SetPrimary? && c2.SetPrimary?)
    || (c1.SetNotNull? && c2.SetNotNull?)
    || (c1.SetUnique? && c2.SetUnique?)
    || (c1.SetDefault? && c2.SetDefault?)
  }

  function ApplySetter(b: ColumnAddBuilder, call: SetterCall): (r: ColumnAddBuilder) {
    match call
    case SetPrimary(v) => Primary(b, v)
    case SetNotNull(v) => NotNull(b, v)
    case SetUnique(v) => Unique(b, v)
    case SetDefault(v) => Default(b, v)
  }

  /** Setting one constraint twice keeps the last value, for each of the
      four setters. */
  lemma SettersOverride(b: ColumnAddBuilder, first: SetterCall, last: SetterCall)
    requires SameField(first, last)
    ensures ApplySetter(ApplySetter(b, first), last) == ApplySetter(b, last)
  {
  }

  /** Setting two different constraints gives the same builder in either
      order, for each of the six pairs of setters. */
  lemma SettersCommute(b: ColumnAddBuilder, c1: SetterCall, c2: SetterCall)
    requires !SameField(c1, c2)
    ensures ApplySetter(ApplySetter(b, c1), c2) == ApplySetter(ApplySetter(b, c2), c1)
  {
  }

  /** A chain of setter calls, applied left to right as `.a(..).b(..)`. */
  function ApplySetters(b: ColumnAddBuilder, calls: seq<SetterCall>): (r: ColumnAddBuilder)
    decreases |calls|
  {
    if calls == [] then b else ApplySetters(ApplySetter(b, calls[0]), calls[1..])
  }

  /** No chain of setters, of any length and in any order, changes the name,
      the type or the `ADD COLUMN` prefix flag: a built column is prefixed
      only if the builder it came from was. */
  lemma {:induction false} SettersKeepPrefix(b: ColumnAddBuilder, calls: seq<SetterCall>)
    ensures SameColumn(ApplySetters(b, calls), b)
    ensures Build(ApplySetters(b, calls)).withPrefix == b.inner.withPrefix
    decreases |calls|
  {
    if calls != [] {
      SettersKeepPrefix(ApplySetter(b, calls[0]), calls[1..]);
    }
  }

  function UuidColumn(name: string): (b: ColumnAddBuilder)
    ensures IsFresh(b, name, Uuid)
  {
    NewBuilder(name, Uuid)
  }

  function BoolColumn(name: string): (b: ColumnAddBuilder)
    ensures IsFresh(b, name, Bool)
  {
    NewBuilder(name, Bool)
  }

  /** `varchar(name, size)`: a missing size means 255. */
  function VarcharColumn(name: string, size: Option<nat>): (b: ColumnAddBuilder)
    ensures size == None ==> IsFresh(b, name, Varchar(255))
    ensures size.Some? ==> IsFresh(b, name, Varchar(size.value))
  {
    NewBuilder(name, Varchar(match size case Some(n) => n case None => 255))
  }

  function RealColumn(name: string): (b: ColumnAddBuilder)
    ensures IsFresh(b, name, Real)
  {
    NewBuilder(name, Real)
  }

  function TextColumn(name: string): (b: ColumnAddBuilder)
    ensures IsFresh(b, name, Text)
  {
    NewBuilder(name, Text)
  }

  function TimestampColumn(name: string): (b: ColumnAddBuilder)
    ensures IsFresh(b, name, Timestamp)
  {
    NewBuilder(name, Timestamp)
  }

  function TimestampTzColumn(name: string): (b: ColumnAddBuilder)
    ensures IsFresh(b, name, TimestampTz)
  {
    NewBuilder(name, TimestampTz)
  }

  function IntegerColumn(name: string): (b: ColumnAddBuilder)
    ensures IsFresh(b, name, Integer)
  {
    NewBuilder(name, Integer)
  }

  function JsonbColumn(name: string): (b: ColumnAddBuilder)
    ensures IsFresh(b, name, Jsonb)
  {
    NewBuilder(name, Jsonb)
  }
}
