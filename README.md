# sql-press DDL generator, modelled in Dafny

sql-press records schema-change instructions in memory and renders them as
PostgreSQL DDL text. This project models how that happens:

- **Dialect.** The Postgres dialect is a value holding one schema name,
  `public` by default. It offers pure string builders for:
  - the table statements (`CREATE`, `ALTER`, `RENAME`, `DROP`);
  - the column clauses (add, rename, alter type, drop);
  - the index clauses (foreign key, primary key);
  - the column-type names;
  - the constraint suffix, which is joined and then trimmed.
- **Leaf changes.** There are four column changes and four index changes. In
  Dafny they form one closed datatype, and each change renders through the
  matching dialect call. Column definitions come from a fluent builder with
  type shortcuts such as `uuid` and `varchar`.
- **`Table`.** A per-table accumulator with two lists: plain column changes
  and index changes. The create and alter capabilities append to them in
  place. `get_changes` returns the plain list followed by the index list.
- **`TableChange`.** One operation on one table: create, create if not
  exists, alter, rename or drop. Create and alter wrap the renders of their
  nested changes, in order.
- **`ChangeSet`.** An ordered list of table changes. `create_table` and
  `alter_table` each run a handler on a fresh `Table` and append one entry.
  `get_ddl` renders the entries and joins them with a blank line.

Modules, in dependency order:

| module | contents |
|---|---|
| `Strings` | `seq<char>` helpers: `StartsWith`, `Join`, quoting, trimming with Rust's whitespace set, and decimal formatting |
| `Results` | `Option`, a `Result` failure type usable with `:-`, and the all-or-nothing `MapAll` |
| `Column` | `ColumnType`, `Constraints`, `ColumnAddChange`, the builder and its setters, and the type shortcuts |
| `PostgresDialect` | the dialect functions and the properties of their output |
| `Changes` | the `Change` datatype and the render of a leaf change |
| `Tables` | the `Table` class, `TableChange`, and its render |
| `ChangeSets` | handlers as sequences of capability calls, and the `ChangeSet` class |
| `Scenarios` | the texts the unit tests pin, proved from the general definitions |

A render that the program cannot produce is `Unsupported(<operation>)`. In
the program these are `todo!()` or a call to a method that does not exist.
There are four such cases:
- a combined index (`add_index`);
- a unique constraint (`add_unique_constraint`);
- `ChangeSet::drop_table`;
- `ChangeSet::rename_table`.

A create or alter that contains such a change fails as a whole, and so does
a change set that contains such a table change.

## Model

| member | source | states |
|---|---|---|
| PostgresDialect.NewPostgres | src/sql_dialect/postgres.rs:10-24 | a new dialect has the schema `public` |
| PostgresDialect.CreateTable | src/sql_dialect/postgres.rs:27-35 | a create starts with `CREATE TABLE ` and ends with `\n);` |
| PostgresDialect.CreateTableGuard | src/sql_dialect/postgres.rs:27-35 | `if_not_exists` inserts `IF NOT EXISTS ` right after `CREATE TABLE ` and changes nothing else |
| PostgresDialect.CreateTableNests | src/sql_dialect/postgres.rs:27-35 | the empty create ends in ` (\n\n);`, and the nested renders, joined by `,\n`, go exactly between its `(\n` and `\n);` |
| PostgresDialect.AlterTable | src/sql_dialect/postgres.rs:37-44 | an alter starts with `ALTER TABLE ` and ends with `;` |
| PostgresDialect.AlterTableNests | src/sql_dialect/postgres.rs:37-44 | the empty alter ends in `"\n;`, and the renders, joined by `,\n`, go exactly before the final `;` |
| PostgresDialect.RenameTable | src/sql_dialect/postgres.rs:46-51 | a rename starts with `ALTER TABLE ` and ends with `;` |
| PostgresDialect.DropTable | src/sql_dialect/postgres.rs:53-55 | a drop starts with `DROP TABLE ` and ends with `;` |
| PostgresDialect.TableNamesQualified | src/sql_dialect/postgres.rs:27-55 | create, alter, rename and drop all name the table as `schema."name"` with the dialect's schema; a rename qualifies the new name with the same schema |
| PostgresDialect.ColumnDefinition | src/sql_dialect/postgres.rs:57-71 | an unprefixed column definition starts with the quoted name, a space and the type name |
| PostgresDialect.AddColumnPrefix | src/sql_dialect/postgres.rs:57-71 | the definition is the quoted name, a space, the type and the constraint suffix; it starts with `ADD COLUMN ` if and only if `with_prefix`, and that prefix is the only difference the flag makes |
| PostgresDialect.RenameColumn | src/sql_dialect/postgres.rs:73-75 | a rename starts with `RENAME COLUMN "old" TO ` and ends with ` TO "new"` |
| PostgresDialect.AlterColumn | src/sql_dialect/postgres.rs:77-86 | starts with `ALTER COLUMN "name" TYPE <type>`; with a conversion method it ends with ` USING <method>` |
| PostgresDialect.AlterColumnUsing | src/sql_dialect/postgres.rs:77-86 | without a conversion method the clause is exactly `ALTER COLUMN "name" TYPE <type>`; with one, it only appends ` USING <method>` |
| PostgresDialect.DropColumn | src/sql_dialect/postgres.rs:88-94 | a drop clause starts with `DROP COLUMN ` and ends with the quoted column name |
| PostgresDialect.DropColumnGuard | src/sql_dialect/postgres.rs:88-94 | a drop is `DROP COLUMN "name"`; `if_exists` inserts `IF EXISTS ` after `DROP COLUMN `; the clause starts with `DROP COLUMN IF EXISTS ` if and only if `if_exists` |
| PostgresDialect.AddIndex | src/sql_dialect/postgres.rs:96-103 | a combined index has no rendering: `Unsupported("add_index")` |
| PostgresDialect.ForeignKey | src/sql_dialect/postgres.rs:105-125 | the key clause starts with `FOREIGN KEY(` |
| PostgresDialect.AddForeignIndex | src/sql_dialect/postgres.rs:105-125 | every foreign-index clause ends with the key clause `FOREIGN KEY("col") REFERENCES "table"("col")` |
| PostgresDialect.AddForeignIndexUnnamed | src/sql_dialect/postgres.rs:105-125 | without a name the clause is the bare key, or `ADD ` followed by the key |
| PostgresDialect.AddForeignIndexNamed | src/sql_dialect/postgres.rs:105-125 | with a name the key is preceded by `CONSTRAINT <name> `, and `ADD ` goes in front of that |
| PostgresDialect.AddForeignIndexParts | src/sql_dialect/postgres.rs:105-125 | the key quotes the column, the foreign table without a schema, and the foreign column; the constraint name is unquoted; `ADD ` is prepended when `add_clause` |
| PostgresDialect.AddForeignIndexPrefixes | src/sql_dialect/postgres.rs:105-125 | the clause starts with `ADD ` if and only if `add_clause`; without it, the clause starts with `CONSTRAINT ` if and only if a name is given |
| PostgresDialect.AddPrimaryIndex | src/sql_dialect/postgres.rs:127-136 | the clause starts with `PRIMARY KEY(` and ends with `)` |
| PostgresDialect.AddPrimaryIndexOrder | src/sql_dialect/postgres.rs:127-136 | the columns are listed quoted, in the given order: one column gives `PRIMARY KEY("c")`, and each further column adds `, "c"` before the `)` |
| PostgresDialect.ColumnTypeInjective | src/sql_dialect/postgres.rs:138-150 | the type mapping is one-to-one |
| PostgresDialect.ColumnTypeNames | src/sql_dialect/postgres.rs:138-150 | the nine type names, with a `VARCHAR` length written in decimal |
| PostgresDialect.ColumnTypeSql | src/sql_dialect/postgres.rs:138-150 | every type name is non-empty, and it starts with `V` if and only if the type is `VARCHAR` |
| PostgresDialect.ConstraintsSql | src/sql_dialect/postgres.rs:152-174 | a non-empty constraint suffix starts with the separating space and holds more than that space |
| PostgresDialect.ConstraintsEmptyIff | src/sql_dialect/postgres.rs:152-174 | the suffix is empty if and only if no flag is set and there is no default; otherwise it is a space followed by a non-blank clause |
| PostgresDialect.ClausesBlankIffEmpty | src/sql_dialect/postgres.rs:158-163 | each of the four clause slots is blank if and only if its constraint is absent |
| PostgresDialect.ClausesClean | src/sql_dialect/postgres.rs:158-163 | no clause has whitespace at either end, given a default that does not end in whitespace |
| PostgresDialect.ConstraintsClauseOrder | src/sql_dialect/postgres.rs:152-174 | the suffix holds the clauses in the fixed order PRIMARY KEY, NOT NULL, UNIQUE, DEFAULT, from the first present one to the last, single-space joined; an absent middle clause therefore leaves a double space |
| PostgresDialect.PrimaryOnly | src/sql_dialect/postgres.rs:241-244 | a lone primary flag gives ` PRIMARY KEY` |
| PostgresDialect.NotNullUnique | src/sql_dialect/postgres.rs:246-251 | not-null with unique gives ` NOT NULL UNIQUE` |
| PostgresDialect.DefaultOnly | src/sql_dialect/postgres.rs:253-260 | a lone default gives ` DEFAULT <expr>` |
| PostgresDialect.AllClauses | src/sql_dialect/postgres.rs:152-174 | all four constraints give ` PRIMARY KEY NOT NULL UNIQUE DEFAULT <expr>` |
| PostgresDialect.MiddleGap | src/sql_dialect/postgres.rs:152-174 | primary with unique but not not-null gives ` PRIMARY KEY  UNIQUE`, with two spaces |
| Strings.TrimJoin | src/sql_dialect/postgres.rs:164-166 | trimming a join of clean parts drops exactly the leading and trailing empty parts |
| Strings.Trim | src/sql_dialect/postgres.rs:166 | the trimmed text is empty if and only if the text is all whitespace, and otherwise neither starts nor ends with whitespace |
| Strings.TrimEmptyIff | src/sql_dialect/postgres.rs:166-168 | a trimmed text is empty if and only if the text is all whitespace |
| Strings.DecimalRoundTrip | src/sql_dialect/postgres.rs:138-150 | the decimal spelling of a length reads back as the same number |
| Strings.DecimalInjective | src/sql_dialect/postgres.rs:138-150 | two different lengths have different decimal spellings |
| Column.NewConstraints | src/column.rs:32-49 | `Constraints::new()` sets no flag and no default |
| Column.NewColumnAddChange | src/column.rs:96-104 | a new column has the given name and type, no prefix and no constraints |
| Column.NewBuilder | src/column.rs:117-122 | a new builder holds a fresh column |
| Column.Primary | src/column.rs:124-128 | sets the primary flag and changes nothing else |
| Column.NotNull | src/column.rs:130-134 | sets the not-null flag and changes nothing else |
| Column.Unique | src/column.rs:136-140 | sets the unique flag and changes nothing else |
| Column.Default | src/column.rs:142-146 | sets the default and changes nothing else |
| Column.Build | src/column.rs:148-150 | the built column has the builder's name, type, prefix flag and constraints |
| Column.SettersOverride | src/column.rs:124-146 | setting the same constraint twice keeps the last value, for each of the four setters (`primary`, `not_null`, `unique`, `default`) |
| Column.SettersCommute | src/column.rs:124-146 | setters of different constraints give the same builder in either order, for all six pairs |
| Column.SettersKeepPrefix | src/column.rs:124-150 | any chain of setter calls, of any length and order, keeps the name, the type and the `ADD COLUMN` prefix flag of the built column |
| Column.UuidColumn | src/column.rs:153-155 | a fresh `uuid` column |
| Column.BoolColumn | src/column.rs:157-159 | a fresh `boolean` column |
| Column.VarcharColumn | src/column.rs:161-163 | a fresh `VARCHAR(n)` column, with 255 when no size is given |
| Column.RealColumn | src/column.rs:165-167 | a fresh `real` column |
| Column.TextColumn | src/column.rs:169-171 | a fresh `text` column |
| Column.TimestampColumn | src/column.rs:173-175 | a fresh `timestamp` column |
| Column.TimestampTzColumn | src/column.rs:177-179 | a fresh `timestamp with time zone` column |
| Column.IntegerColumn | src/column.rs:181-183 | a fresh `integer` column |
| Column.JsonbColumn | src/column.rs:185-187 | a fresh `jsonb` column |
| Changes.ChangeDdl | src/column.rs:57-111 | a leaf change renders if and only if it is not a combined index or a unique constraint; those two fail as `add_index` and `add_unique_constraint` |
| Changes.ChangeDdlShape | src/index.rs:123-151 | each renderable change starts with the keyword of its kind; added columns start with `ADD COLUMN ` if and only if prefixed; foreign keys start with `ADD ` if and only if `add_clause`; drops start with `DROP COLUMN IF EXISTS ` if and only if guarded |
| Tables.Table.constructor | src/table.rs:14-19 | a new table has both lists empty |
| Tables.Table.GetChanges | src/table.rs:21-26 | `get_changes` is the plain list followed by the index list, each in recorded order |
| Tables.Table.GetChangesPartition | src/table.rs:21-26 | the result is grouped, with no index change before a plain one, and splitting it by kind gives back the two lists |
| Tables.Table.AddColumn | src/column.rs:213-217 | appends the column unchanged to the plain list; the index list is untouched |
| Tables.Table.AlterAddColumn | src/column.rs:251-256 | appends the column with its prefix flag set; the index list is untouched |
| Tables.Table.DropColumn | src/column.rs:219-225 | appends an unguarded drop of the name; the index list is untouched |
| Tables.Table.DropColumnIfExists | src/column.rs:227-233 | appends a guarded drop of the name; the index list is untouched |
| Tables.Table.RenameColumn | src/column.rs:258-263 | appends the rename with both names verbatim; the index list is untouched |
| Tables.Table.AlterColumn | src/column.rs:265-277 | appends the type change with name, type and conversion verbatim; the index list is untouched |
| Tables.Table.AddForeignIndex | src/index.rs:35-49 | appends a foreign key without `add_clause` to the index list; the plain list is untouched |
| Tables.Table.AlterAddForeignIndex | src/index.rs:66-80 | appends a foreign key with `add_clause` to the index list; the plain list is untouched |
| Tables.Table.AddPrimaryIndex | src/index.rs:51-55 | appends the primary key, columns in order, to the index list; the same under both capabilities |
| Tables.Table.AddUniqueConstraint | src/index.rs:57-62 | appends the unique constraint with its name and ordered columns to the index list; the same under both capabilities |
| Tables.PartsPermutation | src/table.rs:21-26 | splitting a list by kind is a permutation: nothing is lost or duplicated |
| Tables.PartsSnoc | src/table.rs:21-26 | one more change lands at the end of the part of its kind |
| Tables.NewTableChange | src/table.rs:51-64 | keeps the operation, name and changes |
| Tables.SchemaIgnored | src/table.rs:51-64 | the schema argument makes no difference |
| Tables.Renders | src/table.rs:70-74 | the renders of the nested changes, one per change, in order |
| Tables.TableChangeDdl | src/table.rs:66-99 | a table change renders if and only if it is a rename or a drop, or all its nested changes render |
| Tables.TableChangeNests | src/table.rs:69-92 | create, create-if-not-exists and alter wrap the nested renders, in insertion order, in the dialect's statement with the matching guard flag |
| Tables.TableChangeFails | src/table.rs:69-92 | create and alter fail with the failure of the first nested change that has no rendering; no partial text |
| Tables.RenameDropIgnoreNested | src/table.rs:93-96 | rename and drop ignore the nested changes; a rename passes its new name on |
| Tables.OutputSchemaFromDialect | src/table.rs:51-64 | whatever schema a table change was made with, its create names the dialect's schema |
| Results.MapAll | src/table.rs:70-74 | mapping succeeds if and only if every element renders, and then gives the renders in order; otherwise it gives the first failure |
| Results.MapAllFirstFailure | src/table.rs:70-74 | the failure is the one of the first element that fails |
| ChangeSets.CreateEntry | src/index.rs:33-62 | a create-capability call records an index change if and only if it is not a column add, a column add unchanged, and a foreign key without `add_clause` |
| ChangeSets.AlterEntry | src/column.rs:219-278 | an alter-capability call records a column add with its prefix flag set, a drop that is guarded if and only if it came from `drop_column_if_exists`, an index change exactly for the index calls, and a foreign key with `add_clause` |
| ChangeSets.RecordPermutes | src/change.rs:211-223 | what a handler leaves in its table is a permutation of its calls: plain changes first, and each kind in call order |
| ChangeSets.CreateNeverAdds | src/change.rs:211-223 | inside a create, no column starts with `ADD COLUMN ` and no foreign key with `ADD ` |
| ChangeSets.AlterAlwaysAdds | src/change.rs:225-237 | inside an alter, every added column starts with `ADD COLUMN ` and every foreign key with `ADD ` |
| ChangeSets.AlterDropGuard | src/column.rs:219-233 | `drop_column` never renders `IF EXISTS`; `drop_column_if_exists` always does |
| ChangeSets.ApplyCreate | src/index.rs:34-63 | one create-capability call appends its change to the end of the list of its kind |
| ChangeSets.ApplyAlter | src/index.rs:65-94 | one alter-capability call appends its change to the end of the list of its kind |
| ChangeSets.Ddl | src/change.rs:247-254 | the change set renders if and only if every entry does |
| ChangeSets.DdlAppend | src/change.rs:247-254 | no entries give `""`, one entry gives its own render, and each further entry adds a blank line and its render at the end |
| ChangeSets.ChangeSet.constructor | src/change.rs:256-263 | a new change set has the schema `public` and no entries |
| ChangeSets.ChangeSet.CreateTable | src/change.rs:211-223 | appends exactly one `Create` entry holding the handler's recorded changes; earlier entries and the schema are unchanged |
| ChangeSets.ChangeSet.AlterTable | src/change.rs:225-237 | appends exactly one `Alter` entry holding the handler's recorded changes; earlier entries and the schema are unchanged |
| ChangeSets.ChangeSet.DropTable | src/change.rs:239-241 | fails as `drop_table` and records nothing |
| ChangeSets.ChangeSet.RenameTable | src/change.rs:243-245 | fails as `rename_table` and records nothing |
| ChangeSets.ChangeSet.GetDdl | src/change.rs:247-254 | the change set renders if and only if every entry does |
| Scenarios.CreateTableVector | src/sql_dialect/postgres.rs:186-187 | the empty create of `tag` |
| Scenarios.CreateTableChangesVector | src/sql_dialect/postgres.rs:189-193 | the create of `tag` with two changes |
| Scenarios.CreateTableIfNotExistsVector | src/sql_dialect/postgres.rs:195-199 | the guarded empty create of `tag` |
| Scenarios.CreateTableEmptyGuarded | src/sql_dialect/postgres.rs:27-35 | a guarded empty create is the guard, the qualified name and an empty body |
| Scenarios.RenameTableVector | src/sql_dialect/postgres.rs:203-210 | the rename of `tags` to `tag` |
| Scenarios.AlterTableVector | src/sql_dialect/postgres.rs:214-216 | the empty alter of `tags` |
| Scenarios.AlterTableChangesVector | src/sql_dialect/postgres.rs:218-222 | the alter of `tags` with two changes |
| Scenarios.DropTableVector | src/sql_dialect/postgres.rs:226-230 | the drop of `tags` |
| Scenarios.AddColumnUnconstrained | src/sql_dialect/postgres.rs:57-71 | an unconstrained definition is the quoted name, a space and the type |
| Scenarios.AddColumnVector | src/sql_dialect/postgres.rs:235-239 | `"id" uuid`, with and without `ADD COLUMN ` |
| Scenarios.AddColumnPrimaryVector | src/sql_dialect/postgres.rs:241-244 | `ADD COLUMN "id" uuid PRIMARY KEY` |
| Scenarios.AddColumnNotNullUniqueVector | src/sql_dialect/postgres.rs:246-251 | `ADD COLUMN "id" uuid NOT NULL UNIQUE` |
| Scenarios.AddColumnDefaultVector | src/sql_dialect/postgres.rs:253-260 | `ADD COLUMN "id" uuid DEFAULT uuid_v4_generate()` |
| Scenarios.RenameColumnVector | src/sql_dialect/postgres.rs:264-268 | `RENAME COLUMN "id" TO "id2"` |
| Scenarios.DropColumnVectors | src/sql_dialect/postgres.rs:271-278 | the plain and the guarded drop of `id` |
| Scenarios.AddForeignIndexUnnamedVectors | src/sql_dialect/postgres.rs:283-294 | the unnamed foreign key to `blubb`, bare and with `ADD ` |
| Scenarios.AddForeignIndexNamedVectors | src/sql_dialect/postgres.rs:296-322 | the foreign key named `fk_blubb_blubb_id`, bare and with `ADD ` |
| Scenarios.AddPrimaryIndexVector | src/sql_dialect/postgres.rs:326-330 | `PRIMARY KEY("id", "id2")` |
| Scenarios.ColumnAddScenario | src/column.rs:295-306 | two create-capability columns are recorded unprefixed, and one alter-capability column is recorded prefixed |
| Scenarios.ColumnAlterScenario | src/column.rs:309-323 | an added column, a type change and a rename are recorded in call order with their fields |
| Scenarios.ColumnDropScenario | src/column.rs:326-338 | a plain drop and a guarded drop of `test`, in order |
| Scenarios.BuilderScenario | src/column.rs:341-359 | a fresh builder has no constraint, and each setter turns on its own flag while keeping the earlier ones |
| Scenarios.CreateTwoColumnsDdl | src/table.rs:69-76 | a create of two columns puts each definition on its own line inside the parentheses |
| Scenarios.AlterAddDropRenameDdl | src/table.rs:85-92 | an alter that adds, drops and renames lists the three clauses in that order |
| Scenarios.DdlOfTwo | src/change.rs:247-254 | two table changes render as their texts with a blank line between |
| Scenarios.XxxCreateDdl | src/change.rs:275-278 | the create of `xxx` with the primary `id` and `description VARCHAR(255)` |
| Scenarios.XxxAlterDdl | src/change.rs:280-284 | the alter of `xxx` that adds `id2`, drops `description` and renames `id2` to `id3` |
| Scenarios.XxxCreateRecord | src/change.rs:275-278 | the create handler records its two columns unchanged |
| Scenarios.XxxAlterRecord | src/change.rs:280-284 | the alter handler records its three changes in call order, with the column prefixed |
| Scenarios.ChangeSetScenario | src/change.rs:271-289 | the change set with that create and that alter renders both statements, blank-line separated, with the exact text the current dialect gives |

## Left out

- `run_script`, the name-taking `drop_table`/`rename_table`, and `Postgres::new_rc` from the crate documentation (src/lib.rs). None of them is implemented in the crate's source, so the model gives them no text.
- The older `SqlDialect`, `Postgres`, `TableChange` and `Table` at the top of src/change.rs. They are superseded by src/sql_dialect/, src/table.rs and src/column.rs, which the model follows. Only `ChangeSet` is taken from that file.
- src/old_lib.rs: every line is commented out.
- Dynamic dispatch through `Rc<dyn SqlDialect>` and `Box<dyn Change>`, and the downcasting test helper. The dialect is the one Postgres value, and the changes are a closed datatype matched by case.
- Handlers: the closures passed to `create_table` and `alter_table` become the sequence of capability calls they make, `CreateOp` or `AlterOp`. A handler that branches on other state, or that does not terminate, is not represented.
- `Debug` and `Clone` derives, the test's `println!`, and execution against a database.
- Column.Primary: the builder setters are modelled as functions on a builder value. The Rust setters take `self` by value and return it, so no aliasing is lost.
- Column.VarcharColumn: the `usize` length is modelled as an unbounded `nat`. No length reaches a bound in the program's own uses.
- PostgresDialect.ConstraintsClauseOrder: stated for defaults that do not end in whitespace. A default expression that does end in whitespace loses that whitespace to `trim`, and the lemma does not describe that case.
- PostgresDialect.DefaultOnly: the same restriction to defaults that do not end in whitespace.
- PostgresDialect.AllClauses: the same restriction to defaults that do not end in whitespace.
- Tables.Table.AddColumn: every capability method requires the table's two lists to be sorted by kind (`Valid()`). Every table built through `Table.constructor` and these methods satisfies this.

### Notes on the source

- Create and alter both join nested renders with `,\n`.
- `TableChange::new` takes a schema argument and drops it (src/table.rs:51-64). The schema in the output is always the dialect's.
- A unique constraint's render calls `add_unique_constraint`, which the `SqlDialect` trait does not declare (src/sql_dialect/mod.rs:7-46). The model renders it as `Unsupported("add_unique_constraint")`.
- The change-set test at src/change.rs:271-289 builds the older dialect and only prints. `ChangeSetScenario` states the text that the current dialect in src/sql_dialect/postgres.rs gives for the same change set.
