/** The change set: an ordered list of whole-table changes, filled by
    `CreateTable` and `AlterTable` and rendered with a blank line between
    entries.

    A handler is the sequence of capability calls it makes on the fresh
    table, in order: `CreateOp` for the create capability, `AlterOp` for the
    alter capability. */
module ChangeSets {
  import opened Strings
  import opened Results
  import opened Column
  import opened PostgresDialect
  import opened Changes
  import opened Tables

  /** A call of the create capability (`ColumnAdd` and `IndexAdd`). */
  datatype CreateOp =
    | CreateAddColumn(column: ColumnAddChange)
    | CreateAddForeignIndex(columnName: string, foreignTableName: string, foreignColumnName: string,
                            idxName: Option<string>)
    | CreateAddPrimaryIndex(columns: seq<string>)
    | CreateAddUniqueConstraint(constraintName: string, columns: seq<string>)

  /** A call of the alter capability (`ColumnAlter`, `ColumnDrop` and
      `IndexAlter`). */
  datatype AlterOp =
    | AlterAddColumn(column: ColumnAddChange)
    | AlterDropColumn(name: string)
    | AlterDropColumnIfExists(name: string)
    | AlterRenameColumn(name: string, newName: string)
    | AlterColumnType(name: string, ct: ColumnType, conversionMethod: Option<string>)
    | AlterAddForeignIndex(columnName: string, foreignTableName: string, foreignColumnName: string,
                           idxName: Option<string>)
    | AlterAddPrimaryIndex(columns: seq<string>)
    | AlterAddUniqueConstraint(constraintName: string, columns: seq<string>)

  /** The change a create-capability call records: columns as given, foreign
      keys as bare clauses. */
  function CreateEntry(op: CreateOp): (r: Change)
    ensures op.CreateAddColumn? ==> r == ColumnAdd(op.column)
    ensures IsIndexChange(r) <==> !op.CreateAddColumn?
    ensures r.IndexAddForeign? ==> !r.addClause
  {
    match op
    case CreateAddColumn(column) => ColumnAdd(column)
    case CreateAddForeignIndex(col, ftable, fcol, idxName) => IndexAddForeign(col, ftable, fcol, idxName, false)
    case CreateAddPrimaryIndex(columns) => IndexAddPrimary(columns)
    case CreateAddUniqueConstraint(name, columns) => IndexAddUnique(name, columns)
  }

  /** The change an alter-capability call records: columns with the
      `ADD COLUMN` prefix, foreign keys as `ADD` clauses. */
  function AlterEntry(op: AlterOp): (r: Change)
    ensures op.AlterAddColumn? ==> r == ColumnAdd(op.column.(withPrefix := true))
    ensures IsIndexChange(r) <==> (op.AlterAddForeignIndex? || op.AlterAddPrimaryIndex? || op.AlterAddUniqueConstraint?)
    ensures r.ColumnDrop? ==> (r.ifExists <==> op.AlterDropColumnIfExists?)
    ensures r.IndexAddForeign? ==> r.addClause
  {
    match op
    case AlterAddColumn(column) => ColumnAdd(column.(withPrefix := true))
    case AlterDropColumn(name) => ColumnDrop(name, false)
    case AlterDropColumnIfExists(name) => ColumnDrop(name, true)
    case AlterRenameColumn(name, newName) => ColumnRename(name, newName)
    case AlterColumnType(name, ct, conversionMethod) => ColumnAlter(name, ct, conversionMethod)
    case AlterAddForeignIndex(col, ftable, fcol, idxName) => IndexAddForeign(col, ftable, fcol, idxName, true)
    case AlterAddPrimaryIndex(columns) => IndexAddPrimary(columns)
    case AlterAddUniqueConstraint(name, columns) => IndexAddUnique(name, columns)
  }

  function CreateEntries(ops: seq<CreateOp>): (r: seq<Change>)
    ensures |r| == |ops| && forall i :: 0 <= i < |ops| ==> r[i] == CreateEntry(ops[i])
  {
    seq(|ops|, i requires 0 <= i < |ops| => CreateEntry(ops[i]))
  }

  function AlterEntries(ops: seq<AlterOp>): (r: seq<Change>)
    ensures |r| == |ops| && forall i :: 0 <= i < |ops| ==> r[i] == AlterEntry(ops[i])
  {
    seq(|ops|, i requires 0 <= i < |ops| => AlterEntry(ops[i]))
  }

  /** What a handler leaves in its table, as `get_changes` hands it over:
      the plain changes in call order, then the index changes in call
      order. */
  function Record(entries: seq<Change>): (r: seq<Change>) {
    ColumnPart(entries) + IndexPart(entries)
  }

  /** Every call is recorded exactly once, plain changes before index
      changes, and the calls of each kind keep their order. */
  lemma RecordPermutes(entries: seq<Change>)
    ensures multiset(Record(entries)) == multiset(entries)
    ensures Grouped(Record(entries))
    ensures ColumnPart(Record(entries)) == ColumnPart(entries)
    ensures IndexPart(Record(entries)) == IndexPart(entries)
  {
    PartsPermutation(entries);
    PartsGrouped(entries);
    PartsOfColumnChanges(ColumnPart(entries));
    IndexSuffixKeepsColumns(ColumnPart(entries), IndexPart(entries));
    IndexSuffixExtendsIndexes(ColumnPart(entries), IndexPart(entries));
  }

  /** One create-capability call on the table: its change lands at the end
      of the list of its kind. */
  method ApplyCreate(t: Table, op: CreateOp)
    requires t.Valid()
    modifies t
    ensures t.Valid()
    ensures var e := CreateEntry(op);
            && t.changes == old(t.changes) + (if IsIndexChange(e) then [] else [e])
            && t.idxChanges == old(t.idxChanges) + (if IsIndexChange(e) then [e] else [])
  {
    match op
    case CreateAddColumn(column) => t.AddColumn(column);
    case CreateAddForeignIndex(col, ftable, fcol, idxName) => t.AddForeignIndex(col, ftable, fcol, idxName);
    case CreateAddPrimaryIndex(columns) => t.AddPrimaryIndex(columns);
    case CreateAddUniqueConstraint(name, columns) => t.AddUniqueConstraint(name, columns);
  }

  /** One alter-capability call on the table: its change lands at the end of
      the list of its kind. */
  method ApplyAlter(t: Table, op: AlterOp)
    requires t.Valid()
    modifies t
    ensures t.Valid()
    ensures var e := AlterEntry(op);
            && t.changes == old(t.changes) + (if IsIndexChange(e) then [] else [e])
            && t.idxChanges == old(t.idxChanges) + (if IsIndexChange(e) then [e] else [])
  {
    match op
    case AlterAddColumn(column) => t.AlterAddColumn(column);
    case AlterDropColumn(name) => t.DropColumn(name);
    case AlterDropColumnIfExists(name) => t.DropColumnIfExists(name);
    case AlterRenameColumn(name, newName) => t.RenameColumn(name, newName);
    case AlterColumnType(name, ct, conversionMethod) => t.AlterColumn(name, ct, conversionMethod);
    case AlterAddForeignIndex(col, ftable, fcol, idxName) => t.AlterAddForeignIndex(col, ftable, fcol, idxName);
    case AlterAddPrimaryIndex(columns) => t.AddPrimaryIndex(columns);
    case AlterAddUniqueConstraint(name, columns) => t.AddUniqueConstraint(name, columns);
  }

  /** A change of the record is one of the recorded calls' changes. */
  lemma RecordFrom(entries: seq<Change>, c: Change)
    requires c in Record(entries)
    ensures c in entries
  {
    RecordPermutes(entries);
    assert c in multiset(Record(entries));
  }

  /** Inside `CREATE TABLE` no change carries an `ADD`: given columns as the
      builder makes them (without prefix), no column definition starts with
      `ADD COLUMN ` and no foreign key with `ADD `. */
  lemma CreateNeverAdds(d: Postgres, ops: seq<CreateOp>, c: Change)
    requires forall i :: 0 <= i < |ops| && ops[i].CreateAddColumn? ==> !ops[i].column.withPrefix
    requires c in Record(CreateEntries(ops))
    ensures c.ColumnAdd? ==> !StartsWith(ChangeDdl(d, c).value, "ADD COLUMN ")
    ensures c.IndexAddForeign? ==> !StartsWith(ChangeDdl(d, c).value, "ADD ")
  {
    RecordFrom(CreateEntries(ops), c);
    var i :| 0 <= i < |ops| && CreateEntries(ops)[i] == c;
    CreateEntryNeverAdds(d, ops[i]);
  }

  /** One create-capability call: its column or foreign key renders without
      `ADD`. */
  lemma CreateEntryNeverAdds(d: Postgres, op: CreateOp)
    requires op.CreateAddColumn? ==> !op.column.withPrefix
    ensures CreateEntry(op).ColumnAdd? ==> !StartsWith(ChangeDdl(d, CreateEntry(op)).value, "ADD COLUMN ")
    ensures CreateEntry(op).IndexAddForeign? ==> !StartsWith(ChangeDdl(d, CreateEntry(op)).value, "ADD ")
  {
    match op
    case CreateAddColumn(col) =>
      AddColumnPrefix(d, col.name, col.withPrefix, col.ct, col.constraints);
    case CreateAddForeignIndex(col, ftable, fcol, idxName) =>
      AddForeignIndexPrefixes(d, col, ftable, fcol, idxName, false);
    case CreateAddPrimaryIndex(_) =>
    case CreateAddUniqueConstraint(_, _) =>
  }

  /** Inside `ALTER TABLE` every added column starts with `ADD COLUMN ` and
      every foreign key with `ADD `, whatever the caller built. */
  lemma AlterAlwaysAdds(d: Postgres, ops: seq<AlterOp>, c: Change)
    requires c in Record(AlterEntries(ops))
    ensures c.ColumnAdd? ==> StartsWith(ChangeDdl(d, c).value, "ADD COLUMN ")
    ensures c.IndexAddForeign? ==> StartsWith(ChangeDdl(d, c).value, "ADD ")
  {
    RecordFrom(AlterEntries(ops), c);
    var i :| 0 <= i < |ops| && AlterEntries(ops)[i] == c;
    AlterEntryAdds(d, ops[i]);
  }

  /** One alter-capability call: its column or foreign key renders with
      `ADD`. */
  lemma AlterEntryAdds(d: Postgres, op: AlterOp)
    ensures AlterEntry(op).ColumnAdd? ==> StartsWith(ChangeDdl(d, AlterEntry(op)).value, "ADD COLUMN ")
    ensures AlterEntry(op).IndexAddForeign? ==> StartsWith(ChangeDdl(d, AlterEntry(op)).value, "ADD ")
  {
    match op
    case AlterAddColumn(col) =>
      AddColumnPrefix(d, col.name, true, col.ct, col.constraints);
    case AlterAddForeignIndex(col, ftable, fcol, idxName) =>
      AddForeignIndexPrefixes(d, col, ftable, fcol, idxName, true);
    case AlterDropColumn(_) =>
    case AlterDropColumnIfExists(_) =>
    case AlterRenameColumn(_, _) =>
    case AlterColumnType(_, _, _) =>
    case AlterAddPrimaryIndex(_) =>
    case AlterAddUniqueConstraint(_, _) =>
  }

  /** `drop_column` never renders `IF EXISTS`; `drop_column_if_exists`
      always does. */
  lemma AlterDropGuard(d: Postgres, op: AlterOp)
    requires op.AlterDropColumn? || op.AlterDropColumnIfExists?
    ensures op.AlterDropColumn? ==> !StartsWith(ChangeDdl(d, AlterEntry(op)).value, "DROP COLUMN IF EXISTS ")
    ensures op.AlterDropColumnIfExists? ==> StartsWith(ChangeDdl(d, AlterEntry(op)).value, "DROP COLUMN IF EXISTS ")
  {
    ChangeDdlShape(d, AlterEntry(op));
  }

  /** `get_ddl` of a list of whole-table changes: each rendered in order,
      joined with a blank line; all or nothing. */
  function Ddl(d: Postgres, entries: seq<TableChange>): (r: Result<string>)
    ensures r.Ok? <==> forall i :: 0 <= i < |entries| ==> TableChangeDdl(d, entries[i]).Ok?
  {
    var rs :- MapAll(entries, (t: TableChange) => TableChangeDdl(d, t));
    Ok(Join(rs, "\n\n"))
  }

  /** No entries render as the empty text, one entry as its own render, and
      each further entry adds a blank line and its render at the end. */
  lemma DdlAppend(d: Postgres, entries: seq<TableChange>, t: TableChange)
    requires forall i :: 0 <= i < |entries| ==> TableChangeDdl(d, entries[i]).Ok?
    requires TableChangeDdl(d, t).Ok?
    ensures Ddl(d, []) == Ok("")
    ensures Ddl(d, [t]) == TableChangeDdl(d, t)
    ensures entries != [] ==> Ddl(d, entries + [t]) == Ok(Ddl(d, entries).value + "\n\n" + TableChangeDdl(d, t).value)
  {
    var f := (t: TableChange) => TableChangeDdl(d, t);
    var one := MapAll([t], f);
    assert one.value == [TableChangeDdl(d, t).value];
    if entries != [] {
      var all := entries + [t];
      var m := MapAll(all, f);
      var init := MapAll(entries, f);
      assert m.value == init.value + [f(t).value];
      JoinSnoc(init.value, f(t).value, "\n\n");
    }
  }

  class ChangeSet {
    var schema: string
    var changes: seq<TableChange>

    /** `ChangeSet::new()` / `default()`: the `public` schema, no entries. */
    constructor ()
      ensures schema == "public" && changes == []
    {
      schema := "public";
      changes := [];
    }

    /** `create_table`: runs the handler once on a fresh table and appends
        one `Create` entry holding what it recorded. */
    method CreateTable(name: string, handler: seq<CreateOp>)
      modifies this
      ensures schema == old(schema)
      ensures changes == old(changes) + [TableChange(Create, name, Record(CreateEntries(handler)))]
    {
      var t := new Table();
      var i := 0;
      while i < |handler|
        invariant 0 <= i <= |handler|
        invariant t.Valid()
        invariant t.changes == ColumnPart(CreateEntries(handler[..i]))
        invariant t.idxChanges == IndexPart(CreateEntries(handler[..i]))
        invariant schema == old(schema) && changes == old(changes)
      {
        ApplyCreate(t, handler[i]);
        assert CreateEntries(handler[..i + 1]) == CreateEntries(handler[..i]) + [CreateEntry(handler[i])];
        PartsSnoc(CreateEntries(handler[..i]), CreateEntry(handler[i]));
        i := i + 1;
      }
      assert handler[..i] == handler;
      changes := changes + [NewTableChange(Create, schema, name, t.GetChanges())];
    }

    /** `alter_table`: runs the handler once on a fresh table and appends
        one `Alter` entry holding what it recorded. */
    method AlterTable(name: string, handler: seq<AlterOp>)
      modifies this
      ensures schema == old(schema)
      ensures changes == old(changes) + [TableChange(Alter, name, Record(AlterEntries(handler)))]
    {
      var t := new Table();
      var i := 0;
      while i < |handler|
        invariant 0 <= i <= |handler|
        invariant t.Valid()
        invariant t.changes == ColumnPart(AlterEntries(handler[..i]))
        invariant t.idxChanges == IndexPart(AlterEntries(handler[..i]))
        invariant schema == old(schema) && changes == old(changes)
      {
        ApplyAlter(t, handler[i]);
        assert AlterEntries(handler[..i + 1]) == AlterEntries(handler[..i]) + [AlterEntry(handler[i])];
        PartsSnoc(AlterEntries(handler[..i]), AlterEntry(handler[i]));
        i := i + 1;
      }
      assert handler[..i] == handler;
      changes := changes + [NewTableChange(Alter, schema, name, t.GetChanges())];
    }

    /** `drop_table` has no implementation: it fails and records nothing. */
    method DropTable() returns (r: Result<()>)
      ensures r == Unsupported("drop_table")
    {
      r := Unsupported("drop_table");
    }

    /** `rename_table` has no implementation: it fails and records nothing. */
    method RenameTable() returns (r: Result<()>)
      ensures r == Unsupported("rename_table")
    {
      r := Unsupported("rename_table");
    }

    /** `get_ddl`: the entries rendered in insertion order, blank-line
        separated; it fails exactly when some entry does. */
    function GetDdl(d: Postgres): (r: Result<string>)
      reads this
      ensures r.Ok? <==> forall i :: 0 <= i < |changes| ==> TableChangeDdl(d, changes[i]).Ok?
    {
      Ddl(d, changes)
    }
  }
}
