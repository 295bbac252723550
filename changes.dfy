/** The leaf instructions a table records: the four column changes and the
    four index changes, as one closed sum type, with the render each one
    delegates to the dialect. */
module Changes {
  import opened Strings
  import opened Results
  import opened Column
  import opened PostgresDialect

  datatype Change =
    | ColumnAdd(column: ColumnAddChange)
    | ColumnRename(name: string, newName: string)
    | ColumnAlter(name: string, ct: ColumnType, conversionMethod: Option<string>)
    | ColumnDrop(name: string, ifExists: bool)
    | IndexAddCombined(tableName: string, columns: seq<string>, idxName: Option<string>)
    | IndexAddForeign(columnName: string, foreignTableName: string, foreignColumnName: string,
                      idxName: Option<string>, addClause: bool)
    | IndexAddPrimary(columns: seq<string>)
    | IndexAddUnique(constraintName: string, columns: seq<string>)

  /** The changes a table keeps in its index list. */
  predicate IsIndexChange(c: Change) {
    c.IndexAddCombined? || c.IndexAddForeign? || c.IndexAddPrimary? || c.IndexAddUnique?
  }

  /** The changes the Postgres dialect cannot render: a combined index goes
      through `add_index`, which has no rendering, and a unique constraint
      calls `add_unique_constraint`, which the dialect does not offer. */
  predicate Unrenderable(c: Change) {
    c.IndexAddCombined? || c.IndexAddUnique?
  }

  /** `get_ddl` of a leaf change: the dialect call on its stored fields. */
  function ChangeDdl(d: Postgres, c: Change): (r: Result<string>)
    ensures r.Ok? <==> !Unrenderable(c)
    ensures c.IndexAddCombined? ==> r == Unsupported("add_index")
    ensures c.IndexAddUnique? ==> r == Unsupported("add_unique_constraint")
  {
    match c
    case ColumnAdd(col) => Ok(AddColumn(d, col.name, col.withPrefix, col.ct, col.constraints))
    case ColumnRename(name, newName) => Ok(RenameColumn(d, name, newName))
    case ColumnAlter(name, ct, conversionMethod) => Ok(AlterColumn(d, name, ct, conversionMethod))
    case ColumnDrop(name, ifExists) => Ok(DropColumn(d, name, ifExists))
    case IndexAddCombined(tableName, columns, idxName) => AddIndex(d, tableName, columns, idxName)
    case IndexAddForeign(col, ftable, fcol, idxName, addClause) =>
      Ok(AddForeignIndex(d, col, ftable, fcol, idxName, addClause))
    case IndexAddPrimary(columns) => Ok(AddPrimaryIndex(d, columns))
    case IndexAddUnique(_, _) => Unsupported("add_unique_constraint")
  }

  /** What the render of each renderable change starts with: the statement
      keyword of its kind, with `ADD ` exactly for the changes recorded through
      the alter capability. */
  lemma ChangeDdlShape(d: Postgres, c: Change)
    requires !Unrenderable(c)
    ensures c.ColumnAdd? ==> (c.column.withPrefix <==> StartsWith(ChangeDdl(d, c).value, "ADD COLUMN "))
    ensures c.ColumnAdd? && !c.column.withPrefix ==> StartsWith(ChangeDdl(d, c).value, "\"")
    ensures c.ColumnRename? ==> StartsWith(ChangeDdl(d, c).value, "RENAME COLUMN " + Quote(c.name) + " TO ")
    ensures c.ColumnAlter? ==> StartsWith(ChangeDdl(d, c).value, "ALTER COLUMN " + Quote(c.name) + " TYPE ")
    ensures c.ColumnDrop? ==> (c.ifExists <==> StartsWith(ChangeDdl(d, c).value, "DROP COLUMN IF EXISTS "))
    ensures c.IndexAddForeign? ==> (c.addClause <==> StartsWith(ChangeDdl(d, c).value, "ADD "))
    ensures c.IndexAddPrimary? ==> StartsWith(ChangeDdl(d, c).value, "PRIMARY KEY(")
  {
    match c
    case ColumnAdd(col) =>
      AddColumnPrefix(d, col.name, col.withPrefix, col.ct, col.constraints);
    case ColumnRename(name, newName) =>
    case ColumnAlter(name, ct, conversionMethod) =>
      var t := "ALTER COLUMN " + Quote(name) + " TYPE ";
      assert StartsWith(t + ColumnTypeSql(ct), t);
    case ColumnDrop(name, ifExists) =>
      DropColumnGuard(d, name, ifExists);
    case IndexAddForeign(col, ftable, fcol, idxName, addClause) =>
      AddForeignIndexPrefixes(d, col, ftable, fcol, idxName, addClause);
    case IndexAddPrimary(columns) =>
  }
}
