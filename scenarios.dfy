/** Concrete renders: the texts the dialect's unit tests pin, the tables the
    column tests fill, and the whole change set of the change-set test, each
    proved from the general definitions.

    Long expected texts are written as the concatenation of their lines (or
    other short pieces), and each piece is spelled out by its own small
    lemma. */
module Scenarios {
  import opened Strings
  import opened Results
  import opened Column
  import opened PostgresDialect
  import opened Changes
  import opened Tables
  import opened ChangeSets

  /* ---------- Dialect statements ---------- */

  lemma CreateTableVector()
    ensures CreateTable(NewPostgres(), "tag", [], false) == "CREATE TABLE public.\"tag\" (\n\n);"
  {
    assert Join([], ",\n") == "";
  }

  /** A guarded create of no changes: the guard, the qualified name and an
      empty body. */
  lemma CreateTableEmptyGuarded(d: Postgres, name: string)
    ensures CreateTable(d, name, [], true) == "CREATE TABLE IF NOT EXISTS " + (Qualified(d.schema, name) + " (\n\n);")
  {
    var q := Qualified(d.schema, name);
    assert Join([], ",\n") == "";
    assert "CREATE TABLE " + "IF NOT EXISTS " + q + " (\n" + "" + "\n);" == "CREATE TABLE IF NOT EXISTS " + (q + " (\n\n);");
  }

  lemma CreateTableIfNotExistsVector()
    ensures CreateTable(NewPostgres(), "tag", [], true) == "CREATE TABLE IF NOT EXISTS " + "public.\"tag\" (\n\n);"
  {
    CreateTableEmptyGuarded(NewPostgres(), "tag");
    assert Qualified("public", "tag") + " (\n\n);" == "public.\"tag\" (\n\n);";
  }

  lemma CreateTableChangesVector()
    ensures CreateTable(NewPostgres(), "tag", ["CHANGE 1", "CHANGE 2"], false)
            == "CREATE TABLE public.\"tag\" (\n" + "CHANGE 1,\nCHANGE 2" + "\n);"
  {
    Join2("CHANGE 1", "CHANGE 2", ",\n");
  }

  lemma AlterTableVector()
    ensures AlterTable(NewPostgres(), "tags", []) == "ALTER TABLE public.\"tags\"\n;"
  {
    assert Join([], ",\n") == "";
  }

  lemma AlterTableChangesVector()
    ensures AlterTable(NewPostgres(), "tags", ["CHANGE 1", "CHANGE 2"])
            == "ALTER TABLE public.\"tags\"\n" + "CHANGE 1,\nCHANGE 2" + ";"
  {
    Join2("CHANGE 1", "CHANGE 2", ",\n");
  }

  lemma RenameTableVector()
    ensures RenameTable(NewPostgres(), "tags", "tag") == "ALTER TABLE public.\"tags\"" + " RENAME TO public.\"tag\";"
  {
    var a := Qualified("public", "tags");
    var b := Qualified("public", "tag");
    assert "ALTER TABLE " + a == "ALTER TABLE public.\"tags\"";
    assert " RENAME TO " + b + ";" == " RENAME TO public.\"tag\";";
  }

  lemma DropTableVector()
    ensures DropTable(NewPostgres(), "tags") == "DROP TABLE public.\"tags\";"
  {
  }

  /* ---------- Column and index clauses ---------- */

  /** A column without constraints is its quoted name and its type. */
  lemma AddColumnUnconstrained(d: Postgres, name: string, ct: ColumnType, c: Constraints)
    requires NoConstraints(c)
    ensures AddColumn(d, name, false, ct, c) == Quote(name) + " " + ColumnTypeSql(ct)
  {
    ConstraintsEmptyIff(c);
    AddColumnPrefix(d, name, false, ct, c);
    var s := ConstraintsSql(c);
    assert Quote(name) + " " + ColumnTypeSql(ct) + s == Quote(name) + " " + ColumnTypeSql(ct);
  }

  lemma IdUuidSpelled()
    ensures Quote("id") + " " + ColumnTypeSql(Uuid) == "\"id\" uuid"
  {
  }

  lemma AddColumnVector(c: Constraints)
    requires NoConstraints(c)
    ensures AddColumn(NewPostgres(), "id", false, Uuid, c) == "\"id\" uuid"
    ensures AddColumn(NewPostgres(), "id", true, Uuid, c) == "ADD COLUMN " + "\"id\" uuid"
  {
    AddColumnUnconstrained(NewPostgres(), "id", Uuid, c);
    IdUuidSpelled();
    AddColumnPrefix(NewPostgres(), "id", true, Uuid, c);
  }

  /** A prefixed column is `ADD COLUMN `, its quoted name and type, and its
      constraint suffix. */
  lemma AddColumnSuffixed(d: Postgres, name: string, ct: ColumnType, c: Constraints, col: string, suffix: string)
    requires Quote(name) + " " + ColumnTypeSql(ct) == col
    requires ConstraintsSql(c) == suffix
    ensures AddColumn(d, name, true, ct, c) == "ADD COLUMN " + col + suffix
  {
    AddColumnPrefix(d, name, true, ct, c);
  }

  lemma AddColumnPrimaryVector(c: Constraints)
    requires c.primary && !c.notNull && !c.unique && c.default == NoDefault
    ensures AddColumn(NewPostgres(), "id", true, Uuid, c) == "ADD COLUMN " + "\"id\" uuid" + " PRIMARY KEY"
  {
    IdUuidSpelled();
    PrimaryOnly(c);
    AddColumnSuffixed(NewPostgres(), "id", Uuid, c, "\"id\" uuid", " PRIMARY KEY");
  }

  lemma AddColumnNotNullUniqueVector(c: Constraints)
    requires !c.primary && c.notNull && c.unique && c.default == NoDefault
    ensures AddColumn(NewPostgres(), "id", true, Uuid, c) == "ADD COLUMN " + "\"id\" uuid" + " NOT NULL UNIQUE"
  {
    IdUuidSpelled();
    NotNullUnique(c);
    AddColumnSuffixed(NewPostgres(), "id", Uuid, c, "\"id\" uuid", " NOT NULL UNIQUE");
  }

  lemma DefaultSuffixSpelled(e: string)
    requires e == "uuid_v4_generate()"
    ensures e != [] && !IsWhitespace(e[|e| - 1])
    ensures " DEFAULT " + e == " DEFAULT uuid_v4_generate()"
  {
  }

  lemma AddColumnDefaultVector(c: Constraints)
    requires !c.primary && !c.notNull && !c.unique && c.default == Plain("uuid_v4_generate()")
    ensures AddColumn(NewPostgres(), "id", true, Uuid, c) == "ADD COLUMN " + "\"id\" uuid" + " DEFAULT uuid_v4_generate()"
  {
    DefaultSuffixSpelled(c.default.expr);
    IdUuidSpelled();
    DefaultOnly(c, c.default.expr);
    AddColumnSuffixed(NewPostgres(), "id", Uuid, c, "\"id\" uuid", " DEFAULT uuid_v4_generate()");
  }

  lemma RenameColumnVector()
    ensures RenameColumn(NewPostgres(), "id", "id2") == "RENAME COLUMN \"id\" TO \"id2\""
  {
  }

  lemma DropColumnVectors()
    ensures DropColumn(NewPostgres(), "id", false) == "DROP COLUMN \"id\""
    ensures DropColumn(NewPostgres(), "id", true) == "DROP COLUMN IF EXISTS \"id\""
  {
  }

  lemma AddPrimaryIndexVector()
    ensures AddPrimaryIndex(NewPostgres(), ["id", "id2"]) == "PRIMARY KEY(\"id\", \"id2\")"
  {
  }

  /** The key clause of the foreign-index tests,
      `FOREIGN KEY("blubb_id") REFERENCES "blubb"("id")`, in the pieces the
      dialect writes it from. */
  const BlubbKey: string := "FOREIGN KEY(" + "\"blubb_id\"" + ") REFERENCES " + "\"blubb\"" + "(" + "\"id\"" + ")"

  lemma BlubbKeySpelled()
    ensures ForeignKey("blubb_id", "blubb", "id") == BlubbKey
  {
  }

  /** The unnamed foreign key, as a bare clause and as an `ADD` clause. */
  lemma AddForeignIndexUnnamedVectors()
    ensures AddForeignIndex(NewPostgres(), "blubb_id", "blubb", "id", None, false) == BlubbKey
    ensures AddForeignIndex(NewPostgres(), "blubb_id", "blubb", "id", None, true) == "ADD " + BlubbKey
  {
    BlubbKeySpelled();
    AddForeignIndexUnnamed(NewPostgres(), "blubb_id", "blubb", "id");
  }

  /** The named foreign key: the constraint name goes unquoted in front. */
  lemma AddForeignIndexNamedVectors()
    ensures AddForeignIndex(NewPostgres(), "blubb_id", "blubb", "id", Some("fk_blubb_blubb_id"), false)
            == "CONSTRAINT fk_blubb_blubb_id " + BlubbKey
    ensures AddForeignIndex(NewPostgres(), "blubb_id", "blubb", "id", Some("fk_blubb_blubb_id"), true)
            == "ADD " + ("CONSTRAINT fk_blubb_blubb_id " + BlubbKey)
  {
    BlubbKeySpelled();
    AddForeignIndexNamed(NewPostgres(), "blubb_id", "blubb", "id", "fk_blubb_blubb_id");
    assert "CONSTRAINT " + "fk_blubb_blubb_id" + " " == "CONSTRAINT fk_blubb_blubb_id ";
  }

  /* ---------- Tables filled by the column tests ---------- */

  /** Two create-capability columns and one alter-capability column: only the
      last is prefixed. */
  method ColumnAddScenario() returns (cs: seq<Change>)
    ensures |cs| == 3 && forall i :: 0 <= i < 3 ==> cs[i].ColumnAdd?
    ensures !cs[0].column.withPrefix && !cs[1].column.withPrefix && cs[2].column.withPrefix
  {
    var t := new Table();
    t.AddColumn(Build(Primary(UuidColumn("id"), true)));
    t.AddColumn(Build(Primary(UuidColumn("id2"), false)));
    t.AlterAddColumn(Build(VarcharColumn("id2", None)));
    cs := t.changes;
  }

  /** An added column, a type change and a rename, recorded in call order. */
  method ColumnAlterScenario() returns (cs: seq<Change>)
    ensures |cs| == 3 && cs[0].ColumnAdd? && cs[1].ColumnAlter? && cs[2].ColumnRename?
    ensures cs[0].column.ct == Varchar(255) && cs[1].ct == Uuid && cs[2].newName == "id3"
  {
    var t := new Table();
    t.AlterAddColumn(Build(VarcharColumn("id2", None)));
    t.AlterColumn("id2", Uuid, None);
    t.RenameColumn("id2", "id3");
    cs := t.changes;
  }

  /** A plain drop and a guarded drop of the same column. */
  method ColumnDropScenario() returns (cs: seq<Change>)
    ensures cs == [ColumnDrop("test", false), ColumnDrop("test", true)]
  {
    var t := new Table();
    t.DropColumn("test");
    t.DropColumnIfExists("test");
    cs := t.changes;
  }

  /** A fresh builder has no constraint; each setter turns on its own flag
      and keeps the ones set before. */
  lemma BuilderScenario()
    ensures var b := NewBuilder("id", Uuid);
            && b.inner.name == "id" && b.inner.ct == Uuid
            && !b.inner.constraints.primary && !b.inner.constraints.notNull && !b.inner.constraints.unique
            && Primary(b, true).inner.constraints.primary
            && NotNull(Primary(b, true), true).inner.constraints.notNull
            && var u := Unique(NotNull(Primary(b, true), true), true).inner.constraints;
               u.primary && u.notNull && u.unique
  {
  }

  /* ---------- The change-set test ---------- */

  /** The renders of two added columns, in order. */
  lemma RendersTwoColumns(d: Postgres, c1: ColumnAddChange, c2: ColumnAddChange)
    ensures Renders(d, [ColumnAdd(c1), ColumnAdd(c2)])
            == [ChangeDdl(d, ColumnAdd(c1)).value, ChangeDdl(d, ColumnAdd(c2)).value]
  {
  }

  /** A create whose two changes render as `a` and `b`: the header, each
      render on its own line, and the closing parenthesis. */
  lemma CreateTwoText(d: Postgres, name: string, ddl: Result<string>, rs: seq<string>, a: string, b: string)
    requires ddl == Ok(CreateTable(d, name, rs, false)) && rs == [a, b]
    ensures ddl == Ok("CREATE TABLE " + Qualified(d.schema, name) + " (\n" + (a + ",\n" + b) + "\n);")
  {
    Join2(a, b, ",\n");
    assert "CREATE TABLE " + "" == "CREATE TABLE ";
  }

  /** A create of renderable changes is the dialect's create statement over
      their renders. */
  lemma CreateNests(d: Postgres, name: string, cs: seq<Change>)
    requires forall i :: 0 <= i < |cs| ==> !Unrenderable(cs[i])
    ensures TableChangeDdl(d, TableChange(Create, name, cs)) == Ok(CreateTable(d, name, Renders(d, cs), false))
  {
    TableChangeNests(d, TableChange(Create, name, cs));
  }

  /** A create of two added columns renders both definitions between the
      header and the closing parenthesis. */
  lemma CreateTwoColumnsDdl(d: Postgres, name: string, c1: ColumnAddChange, c2: ColumnAddChange)
    ensures TableChangeDdl(d, TableChange(Create, name, [ColumnAdd(c1), ColumnAdd(c2)]))
            == Ok("CREATE TABLE " + Qualified(d.schema, name) + " (\n"
                  + (ChangeDdl(d, ColumnAdd(c1)).value + ",\n" + ChangeDdl(d, ColumnAdd(c2)).value) + "\n);")
  {
    CreateNests(d, name, [ColumnAdd(c1), ColumnAdd(c2)]);
    RendersTwoColumns(d, c1, c2);
    CreateTwoText(d, name, TableChangeDdl(d, TableChange(Create, name, [ColumnAdd(c1), ColumnAdd(c2)])),
                  Renders(d, [ColumnAdd(c1), ColumnAdd(c2)]),
                  ChangeDdl(d, ColumnAdd(c1)).value, ChangeDdl(d, ColumnAdd(c2)).value);
  }

  /** The renders of an added column, a dropped one and a renamed one. */
  lemma RendersAddDropRename(d: Postgres, c: ColumnAddChange, dropped: string, from: string, to: string)
    ensures Renders(d, [ColumnAdd(c), ColumnDrop(dropped, false), ColumnRename(from, to)])
            == [ChangeDdl(d, ColumnAdd(c)).value, ChangeDdl(d, ColumnDrop(dropped, false)).value,
                ChangeDdl(d, ColumnRename(from, to)).value]
  {
  }

  /** An alter whose three changes render as `a`, `b` and `e`: the header
      line, then each render on its own line, the last one closed by `;`. */
  lemma AlterThreeText(d: Postgres, name: string, ddl: Result<string>, rs: seq<string>, a: string, b: string, e: string)
    requires ddl == Ok(AlterTable(d, name, rs)) && rs == [a, b, e]
    ensures ddl == Ok("ALTER TABLE " + Qualified(d.schema, name) + "\n" + (a + ",\n" + b + ",\n" + e) + ";")
  {
    Join3(a, b, e, ",\n");
  }

  /** An alter of renderable changes is the dialect's alter statement over
      their renders. */
  lemma AlterNests(d: Postgres, name: string, cs: seq<Change>)
    requires forall i :: 0 <= i < |cs| ==> !Unrenderable(cs[i])
    ensures TableChangeDdl(d, TableChange(Alter, name, cs)) == Ok(AlterTable(d, name, Renders(d, cs)))
  {
    TableChangeNests(d, TableChange(Alter, name, cs));
  }

  /** An alter that adds a column, drops one and renames one renders the
      three clauses in that order. */
  lemma AlterAddDropRenameDdl(d: Postgres, name: string, c: ColumnAddChange, dropped: string, from: string, to: string)
    ensures TableChangeDdl(d, TableChange(Alter, name, [ColumnAdd(c), ColumnDrop(dropped, false), ColumnRename(from, to)]))
            == Ok("ALTER TABLE " + Qualified(d.schema, name) + "\n"
                  + (ChangeDdl(d, ColumnAdd(c)).value + ",\n" + ChangeDdl(d, ColumnDrop(dropped, false)).value + ",\n"
                     + ChangeDdl(d, ColumnRename(from, to)).value) + ";")
  {
    var cs := [ColumnAdd(c), ColumnDrop(dropped, false), ColumnRename(from, to)];
    AlterNests(d, name, cs);
    RendersAddDropRename(d, c, dropped, from, to);
    AlterThreeText(d, name, TableChangeDdl(d, TableChange(Alter, name, cs)), Renders(d, cs), ChangeDdl(d, ColumnAdd(c)).value, ChangeDdl(d, ColumnDrop(dropped, false)).value,
                   ChangeDdl(d, ColumnRename(from, to)).value);
  }

  lemma XxxHeadersSpelled()
    ensures "CREATE TABLE " + Qualified("public", "xxx") + " (\n" == "CREATE TABLE public.\"xxx\" (\n"
    ensures "ALTER TABLE " + Qualified("public", "xxx") + "\n" == "ALTER TABLE public.\"xxx\"\n"
  {
  }

  /** `id uuid`, primary key, created without prefix. */
  lemma IdPrimaryRender(col: ColumnAddChange)
    requires col.name == "id" && col.ct == Uuid && !col.withPrefix
    requires col.constraints.primary && !col.constraints.notNull && !col.constraints.unique
    requires col.constraints.default == NoDefault
    ensures ChangeDdl(NewPostgres(), ColumnAdd(col)).value == "\"id\" uuid" + " PRIMARY KEY"
  {
    IdUuidSpelled();
    PrimaryOnly(col.constraints);
    AddColumnPrefix(NewPostgres(), "id", false, Uuid, col.constraints);
  }

  lemma DescriptionSpelled()
    ensures Quote("description") + " " + ColumnTypeSql(Varchar(255)) == "\"description\" VARCHAR(255)"
  {
    ColumnTypeNames();
  }

  /** `description VARCHAR(255)` without constraints, created without prefix. */
  lemma DescriptionRender(col: ColumnAddChange)
    requires col.name == "description" && col.ct == Varchar(255) && !col.withPrefix
    requires NoConstraints(col.constraints)
    ensures ChangeDdl(NewPostgres(), ColumnAdd(col)).value == "\"description\" VARCHAR(255)"
  {
    DescriptionSpelled();
    AddColumnUnconstrained(NewPostgres(), "description", Varchar(255), col.constraints);
  }

  /** `id2 uuid` without constraints, added through the alter capability. */
  lemma Id2Render(col: ColumnAddChange)
    requires col.name == "id2" && col.ct == Uuid && col.withPrefix
    requires NoConstraints(col.constraints)
    ensures ChangeDdl(NewPostgres(), ColumnAdd(col)).value == "ADD COLUMN " + "\"id2\" uuid"
  {
    assert Quote("id2") + " " + ColumnTypeSql(Uuid) == "\"id2\" uuid";
    AddColumnUnconstrained(NewPostgres(), "id2", Uuid, col.constraints);
    AddColumnPrefix(NewPostgres(), "id2", true, Uuid, col.constraints);
  }

  lemma DropDescriptionRender()
    ensures ChangeDdl(NewPostgres(), ColumnDrop("description", false)).value == "DROP COLUMN \"description\""
  {
  }

  lemma RenameId2Render()
    ensures ChangeDdl(NewPostgres(), ColumnRename("id2", "id3")).value == "RENAME COLUMN \"id2\" TO \"id3\""
  {
  }

  /** The text the change-set test's create renders to. */
  const XxxCreateText: string :=
    "CREATE TABLE public.\"xxx\" (\n" + (("\"id\" uuid" + " PRIMARY KEY") + ",\n" + "\"description\" VARCHAR(255)") + "\n);"

  /** The text the change-set test's alter renders to. */
  const XxxAlterText: string :=
    "ALTER TABLE public.\"xxx\"\n"
    + (("ADD COLUMN " + "\"id2\" uuid") + ",\n" + "DROP COLUMN \"description\"" + ",\n"
       + "RENAME COLUMN \"id2\" TO \"id3\"") + ";"

  /** The create of `xxx` with the primary `id` and `description`. */
  lemma XxxCreateDdl(col1: ColumnAddChange, col2: ColumnAddChange)
    requires col1.name == "id" && col1.ct == Uuid && !col1.withPrefix
    requires col1.constraints.primary && !col1.constraints.notNull && !col1.constraints.unique
    requires col1.constraints.default == NoDefault
    requires col2.name == "description" && col2.ct == Varchar(255) && !col2.withPrefix
    requires NoConstraints(col2.constraints)
    ensures TableChangeDdl(NewPostgres(), TableChange(Create, "xxx", [ColumnAdd(col1), ColumnAdd(col2)]))
            == Ok(XxxCreateText)
  {
    IdPrimaryRender(col1);
    DescriptionRender(col2);
    XxxHeadersSpelled();
    CreateTwoColumnsDdl(NewPostgres(), "xxx", col1, col2);
  }

  /** The alter of `xxx` adding `id2`, dropping `description` and renaming
      `id2` to `id3`. */
  lemma XxxAlterDdl(col3: ColumnAddChange)
    requires col3.name == "id2" && col3.ct == Uuid && col3.withPrefix
    requires NoConstraints(col3.constraints)
    ensures TableChangeDdl(NewPostgres(), TableChange(Alter, "xxx", [ColumnAdd(col3), ColumnDrop("description", false),
                                                                     ColumnRename("id2", "id3")]))
            == Ok(XxxAlterText)
  {
    Id2Render(col3);
    DropDescriptionRender();
    RenameId2Render();
    XxxHeadersSpelled();
    AlterAddDropRenameDdl(NewPostgres(), "xxx", col3, "description", "id2", "id3");
  }

  /** Two table changes render as their two texts with a blank line between. */
  lemma DdlOfTwo(d: Postgres, t1: TableChange, t2: TableChange, s1: string, s2: string)
    requires TableChangeDdl(d, t1) == Ok(s1) && TableChangeDdl(d, t2) == Ok(s2)
    ensures Ddl(d, [t1, t2]) == Ok(s1 + "\n\n" + s2)
  {
    DdlAppend(d, [t1], t2);
    assert [t1] + [t2] == [t1, t2];
  }

  /** The create handler of the change-set test records its two columns as
      they are. */
  lemma XxxCreateRecord(col1: ColumnAddChange, col2: ColumnAddChange)
    ensures Record(CreateEntries([CreateAddColumn(col1), CreateAddColumn(col2)])) == [ColumnAdd(col1), ColumnAdd(col2)]
  {
    var entries := CreateEntries([CreateAddColumn(col1), CreateAddColumn(col2)]);
    assert entries == [ColumnAdd(col1), ColumnAdd(col2)];
    PartsOfColumnChanges(entries);
  }

  /** The alter handler of the change-set test records its three changes in
      call order, the column with the `ADD COLUMN` prefix. */
  lemma XxxAlterRecord(col3: ColumnAddChange)
    ensures Record(AlterEntries([AlterAddColumn(col3), AlterDropColumn("description"), AlterRenameColumn("id2", "id3")]))
            == [ColumnAdd(col3.(withPrefix := true)), ColumnDrop("description", false), ColumnRename("id2", "id3")]
  {
    var entries := AlterEntries([AlterAddColumn(col3), AlterDropColumn("description"), AlterRenameColumn("id2", "id3")]);
    assert entries == [ColumnAdd(col3.(withPrefix := true)), ColumnDrop("description", false), ColumnRename("id2", "id3")];
    PartsOfColumnChanges(entries);
  }

  /** A change set holding the create and then the alter of `xxx` renders
      both statements, blank-line separated, each change on its own line. */
  method ChangeSetScenario() returns (ddl: Result<string>)
    ensures ddl == Ok(XxxCreateText + "\n\n" + XxxAlterText)
  {
    var col1 := Build(Primary(UuidColumn("id"), true));
    var col2 := Build(VarcharColumn("description", None));
    var col3 := Build(UuidColumn("id2"));
    var cs := new ChangeSet();
    cs.CreateTable("xxx", [CreateAddColumn(col1), CreateAddColumn(col2)]);
    cs.AlterTable("xxx", [AlterAddColumn(col3), AlterDropColumn("description"), AlterRenameColumn("id2", "id3")]);
    ddl := cs.GetDdl(NewPostgres());
    XxxCreateRecord(col1, col2);
    XxxAlterRecord(col3);
    XxxCreateDdl(col1, col2);
    XxxAlterDdl(col3.(withPrefix := true));
    DdlOfTwo(NewPostgres(), TableChange(Create, "xxx", [ColumnAdd(col1), ColumnAdd(col2)]),
             TableChange(Alter, "xxx", [ColumnAdd(col3.(withPrefix := true)), ColumnDrop("description", false),
                                        ColumnRename("id2", "id3")]),
             XxxCreateText, XxxAlterText);
  }
}
