/** The per-table accumulator and the whole-table change it turns into.

    A `Table` keeps two ordered lists that the capability methods append to
    in place: plain column changes and index changes. The create capability
    offers `AddColumn`, `AddForeignIndex`, `AddPrimaryIndex` and
    `AddUniqueConstraint`; the alter capability offers `AlterAddColumn`,
    `DropColumn`, `DropColumnIfExists`, `RenameColumn`, `AlterColumn`,
    `AlterAddForeignIndex`, `AddPrimaryIndex` and `AddUniqueConstraint`. The
    two views differ only in the flags they record. */
module Tables {
  import opened Strings
  import opened Results
  import opened Column
  import opened PostgresDialect
  import opened Changes

  /** The changes of `s` that are not index changes, in order. */
  function ColumnPart(s: seq<Change>): (r: seq<Change>)
    ensures |r| <= |s|
    ensures forall i :: 0 <= i < |r| ==> !IsIndexChange(r[i])
  {
    if s == [] then []
    else ColumnPart(s[..|s| - 1]) + (if IsIndexChange(s[|s| - 1]) then [] else [s[|s| - 1]])
  }

  /** The index changes of `s`, in order. */
  function IndexPart(s: seq<Change>): (r: seq<Change>)
    ensures |r| <= |s|
    ensures forall i :: 0 <= i < |r| ==> IsIndexChange(r[i])
  {
    if s == [] then []
    else IndexPart(s[..|s| - 1]) + (if IsIndexChange(s[|s| - 1]) then [s[|s| - 1]] else [])
  }

  /** No index change comes before a plain column change. */
  predicate Grouped(s: seq<Change>) {
    forall i, j :: 0 <= i < j < |s| && IsIndexChange(s[i]) ==> IsIndexChange(s[j])
  }

  /** One more change lands in the part of its kind, at the end. */
  lemma PartsSnoc(s: seq<Change>, x: Change)
    ensures ColumnPart(s + [x]) == ColumnPart(s) + (if IsIndexChange(x) then [] else [x])
    ensures IndexPart(s + [x]) == IndexPart(s) + (if IsIndexChange(x) then [x] else [])
  {
    assert (s + [x])[..|s|] == s;
  }

  /** Splitting by kind loses nothing and duplicates nothing: the two parts
      together are a permutation of the list. */
  lemma {:induction false} PartsPermutation(s: seq<Change>)
    ensures multiset(ColumnPart(s)) + multiset(IndexPart(s)) == multiset(s)
  {
    if s != [] {
      var init, x := s[..|s| - 1], s[|s| - 1];
      PartsPermutation(init);
      assert s == init + [x];
    }
  }

  /** The column part followed by the index part is grouped. */
  lemma PartsGrouped(s: seq<Change>)
    ensures Grouped(ColumnPart(s) + IndexPart(s))
  {
    var c, x := ColumnPart(s), IndexPart(s);
    assert forall k :: 0 <= k < |c| ==> (c + x)[k] == c[k];
    assert forall k :: |c| <= k < |c + x| ==> (c + x)[k] == x[k - |c|];
  }

  /** A list of plain changes is its own column part and has no index part. */
  lemma {:induction false} PartsOfColumnChanges(s: seq<Change>)
    requires forall i :: 0 <= i < |s| ==> !IsIndexChange(s[i])
    ensures ColumnPart(s) == s && IndexPart(s) == []
  {
    if s != [] {
      PartsOfColumnChanges(s[..|s| - 1]);
      assert s == s[..|s| - 1] + [s[|s| - 1]];
    }
  }

  /** Appending index changes leaves the column part as it was. */
  lemma {:induction false} IndexSuffixKeepsColumns(a: seq<Change>, b: seq<Change>)
    requires forall i :: 0 <= i < |b| ==> IsIndexChange(b[i])
    ensures ColumnPart(a + b) == ColumnPart(a)
    decreases |b|
  {
    if |b| != 0 {
      var x, rest := b[0], b[1..];
      PartsSnoc(a, x);
      IndexSuffixKeepsColumns(a + [x], rest);
      assert a + b == (a + [x]) + rest;
    } else {
      assert a + b == a;
    }
  }

  /** Appending index changes extends the index part by exactly them. */
  lemma {:induction false} IndexSuffixExtendsIndexes(a: seq<Change>, b: seq<Change>)
    requires forall i :: 0 <= i < |b| ==> IsIndexChange(b[i])
    ensures IndexPart(a + b) == IndexPart(a) + b
    decreases |b|
  {
    if |b| != 0 {
      var x, rest := b[0], b[1..];
      PartsSnoc(a, x);
      IndexSuffixExtendsIndexes(a + [x], rest);
      assert a + b == (a + [x]) + rest;
      var ip := IndexPart(a);
      assert (ip + [x]) + rest == ip + b;
    } else {
      assert a + b == a;
    }
  }

  class Table {
    var changes: seq<Change>
    var idxChanges: seq<Change>

    /** Plain changes in `changes`, index changes in `idxChanges`. */
    ghost predicate Valid()
      reads this
    {
      && (forall i :: 0 <= i < |changes| ==> !IsIndexChange(changes[i]))
      && (forall i :: 0 <= i < |idxChanges| ==> IsIndexChange(idxChanges[i]))
    }

    /** `Table::new()`: both lists empty. */
    constructor ()
      ensures changes == [] && idxChanges == []
      ensures Valid()
    {
      changes := [];
      idxChanges := [];
    }

    /** `get_changes`: the plain changes, then the index changes, each list
        in the order it was recorded. */
    function GetChanges(): (r: seq<Change>)
      reads this
      ensures |r| == |changes| + |idxChanges|
      ensures r[..|changes|] == changes && r[|changes|..] == idxChanges
    {
      changes + idxChanges
    }

    /** Of a valid table, `get_changes` is grouped (no index change before a
        plain one), and splitting it by kind gives back the two lists. */
    lemma GetChangesPartition()
      requires Valid()
      ensures Grouped(GetChanges())
      ensures ColumnPart(GetChanges()) == changes
      ensures IndexPart(GetChanges()) == idxChanges
    {
      var r := GetChanges();
      assert forall k :: 0 <= k < |changes| ==> r[k] == changes[k];
      assert forall k :: |changes| <= k < |r| ==> r[k] == idxChanges[k - |changes|];
      PartsOfColumnChanges(changes);
      IndexSuffixKeepsColumns(changes, idxChanges);
      IndexSuffixExtendsIndexes(changes, idxChanges);
    }

    /** `ColumnAdd::add_column` (create capability): the column is appended
        unchanged. */
    method AddColumn(column: ColumnAddChange)
      requires Valid()
      modifies this
      ensures changes == old(changes) + [ColumnAdd(column)]
      ensures idxChanges == old(idxChanges)
      ensures Valid()
    {
      changes := changes + [ColumnAdd(column)];
    }

    /** `ColumnAlter::add_column` (alter capability): the column is appended
        with its `ADD COLUMN` prefix turned on. */
    method AlterAddColumn(column: ColumnAddChange)
      requires Valid()
      modifies this
      ensures changes == old(changes) + [ColumnAdd(column.(withPrefix := true))]
      ensures idxChanges == old(idxChanges)
      ensures Valid()
    {
      var alterColumn := column.(withPrefix := true);
      changes := changes + [ColumnAdd(alterColumn)];
    }

    method DropColumn(name: string)
      requires Valid()
      modifies this
      ensures changes == old(changes) + [Change.ColumnDrop(name, false)]
      ensures idxChanges == old(idxChanges)
      ensures Valid()
    {
      changes := changes + [Change.ColumnDrop(name, false)];
    }

    method DropColumnIfExists(name: string)
      requires Valid()
      modifies this
      ensures changes == old(changes) + [Change.ColumnDrop(name, true)]
      ensures idxChanges == old(idxChanges)
      ensures Valid()
    {
      changes := changes + [Change.ColumnDrop(name, true)];
    }

    method RenameColumn(name: string, newName: string)
      requires Valid()
      modifies this
      ensures changes == old(changes) + [ColumnRename(name, newName)]
      ensures idxChanges == old(idxChanges)
      ensures Valid()
    {
      changes := changes + [ColumnRename(name, newName)];
    }

    method AlterColumn(columnName: string, newColumnType: ColumnType, conversionMethod: Option<string>)
      requires Valid()
      modifies this
      ensures changes == old(changes) + [Change.ColumnAlter(columnName, newColumnType, conversionMethod)]
      ensures idxChanges == old(idxChanges)
      ensures Valid()
    {
      changes := changes + [Change.ColumnAlter(columnName, newColumnType, conversionMethod)];
    }

    /** `IndexAdd::add_foreign_index` (create capability): a bare clause. */
    method AddForeignIndex(columnName: string, foreignTableName: string, foreignColumnName: string,
                           idxName: Option<string>)
      requires Valid()
      modifies this
      ensures idxChanges == old(idxChanges) + [IndexAddForeign(columnName, foreignTableName, foreignColumnName, idxName, false)]
      ensures changes == old(changes)
      ensures Valid()
    {
      idxChanges := idxChanges + [IndexAddForeign(columnName, foreignTableName, foreignColumnName, idxName, false)];
    }

    /** `IndexAlter::add_foreign_index` (alter capability): an `ADD` clause. */
    method AlterAddForeignIndex(columnName: string, foreignTableName: string, foreignColumnName: string,
                                idxName: Option<string>)
      requires Valid()
      modifies this
      ensures idxChanges == old(idxChanges) + [IndexAddForeign(columnName, foreignTableName, foreignColumnName, idxName, true)]
      ensures changes == old(changes)
      ensures Valid()
    {
      idxChanges := idxChanges + [IndexAddForeign(columnName, foreignTableName, foreignColumnName, idxName, true)];
    }

    /** `add_primary_index`, the same under both capabilities. */
    method AddPrimaryIndex(columns: seq<string>)
      requires Valid()
      modifies this
      ensures idxChanges == old(idxChanges) + [IndexAddPrimary(columns)]
      ensures changes == old(changes)
      ensures Valid()
    {
      idxChanges := idxChanges + [IndexAddPrimary(columns)];
    }

    /** `add_unique_constraint`, the same under both capabilities. */
    method AddUniqueConstraint(constraintName: string, columns: seq<string>)
      requires Valid()
      modifies this
      ensures idxChanges == old(idxChanges) + [IndexAddUnique(constraintName, columns)]
      ensures changes == old(changes)
      ensures Valid()
    {
      idxChanges := idxChanges + [IndexAddUnique(constraintName, columns)];
    }
  }

  datatype TableChangeOp = Create | CreateIfNotExists | Alter | Rename(newTableName: string) | Drop

  /** A whole-table change: the operation, the table name and the nested
      leaf changes. */
  datatype TableChange = TableChange(operation: TableChangeOp, name: string, changes: seq<Change>)

  /** `TableChange::new`: the schema argument is accepted and dropped. */
  function NewTableChange(operation: TableChangeOp, schema: string, name: string, changes: seq<Change>): (t: TableChange)
    ensures t.operation == operation && t.name == name && t.changes == changes
  {
    TableChange(operation, name, changes)
  }

  /** The schema handed to `TableChange::new` makes no difference. */
  lemma SchemaIgnored(operation: TableChangeOp, s1: string, s2: string, name: string, changes: seq<Change>)
    ensures NewTableChange(operation, s1, name, changes) == NewTableChange(operation, s2, name, changes)
  {
  }

  /** The renders of renderable nested changes, in order. */
  function Renders(d: Postgres, cs: seq<Change>): (r: seq<string>)
    requires forall i :: 0 <= i < |cs| ==> !Unrenderable(cs[i])
    ensures |r| == |cs|
    ensures forall i :: 0 <= i < |cs| ==> r[i] == ChangeDdl(d, cs[i]).value
  {
    if cs == [] then [] else [ChangeDdl(d, cs[0]).value] + Renders(d, cs[1..])
  }

  /** `get_ddl` of a whole-table change: create and alter render the nested
      changes in order and wrap them; rename and drop ignore them. A nested
      change without a rendering fails the whole render. */
  function TableChangeDdl(d: Postgres, t: TableChange): (r: Result<string>)
    ensures r.Ok? <==> (t.operation.Rename? || t.operation.Drop? ||
                        forall i :: 0 <= i < |t.changes| ==> !Unrenderable(t.changes[i]))
  {
    match t.operation
    case Create =>
      var c :- MapAll(t.changes, (c: Change) => ChangeDdl(d, c));
      Ok(CreateTable(d, t.name, c, false))
    case CreateIfNotExists =>
      var c :- MapAll(t.changes, (c: Change) => ChangeDdl(d, c));
      Ok(CreateTable(d, t.name, c, true))
    case Alter =>
      var c :- MapAll(t.changes, (c: Change) => ChangeDdl(d, c));
      Ok(AlterTable(d, t.name, c))
    case Drop => Ok(DropTable(d, t.name))
    case Rename(newTableName) => Ok(RenameTable(d, t.name, newTableName))
  }

  /** Create, create-if-not-exists and alter wrap the nested renders, in
      insertion order, in the dialect's statement. */
  lemma TableChangeNests(d: Postgres, t: TableChange)
    requires forall i :: 0 <= i < |t.changes| ==> !Unrenderable(t.changes[i])
    ensures t.operation.Create? ==> TableChangeDdl(d, t) == Ok(CreateTable(d, t.name, Renders(d, t.changes), false))
    ensures t.operation.CreateIfNotExists? ==> TableChangeDdl(d, t) == Ok(CreateTable(d, t.name, Renders(d, t.changes), true))
    ensures t.operation.Alter? ==> TableChangeDdl(d, t) == Ok(AlterTable(d, t.name, Renders(d, t.changes)))
  {
    var m := MapAll(t.changes, (c: Change) => ChangeDdl(d, c));
    assert m.value == Renders(d, t.changes);
  }

  /** A nested change without a rendering makes create and alter fail with
      the first such change's failure. */
  lemma TableChangeFails(d: Postgres, t: TableChange, k: nat)
    requires !t.operation.Rename? && !t.operation.Drop?
    requires k < |t.changes| && Unrenderable(t.changes[k])
    requires forall j :: 0 <= j < k ==> !Unrenderable(t.changes[j])
    ensures TableChangeDdl(d, t) == ChangeDdl(d, t.changes[k])
  {
    MapAllFirstFailure(t.changes, (c: Change) => ChangeDdl(d, c), k);
  }

  /** Rename and drop ignore the nested changes altogether. */
  lemma RenameDropIgnoreNested(d: Postgres, name: string, newTableName: string, cs1: seq<Change>, cs2: seq<Change>)
    ensures TableChangeDdl(d, TableChange(Drop, name, cs1)) == TableChangeDdl(d, TableChange(Drop, name, cs2))
    ensures TableChangeDdl(d, TableChange(Rename(newTableName), name, cs1))
            == TableChangeDdl(d, TableChange(Rename(newTableName), name, cs2))
    ensures TableChangeDdl(d, TableChange(Drop, name, cs1)) == Ok(DropTable(d, name))
    ensures TableChangeDdl(d, TableChange(Rename(newTableName), name, cs1)) == Ok(RenameTable(d, name, newTableName))
  {
  }

  /** The schema in the output is the dialect's: whatever schema the table
      change was made with, a create renders under `d.schema`. */
  lemma OutputSchemaFromDialect(d: Postgres, schema: string, name: string, cs: seq<Change>)
    requires forall i :: 0 <= i < |cs| ==> !Unrenderable(cs[i])
    ensures var r := TableChangeDdl(d, NewTableChange(Create, schema, name, cs));
            r.Ok? && StartsWith(r.value, "CREATE TABLE " + d.schema + "." + Quote(name) + " (")
  {
    TableChangeNests(d, NewTableChange(Create, schema, name, cs));
    CreateHeader(d, name, Renders(d, cs));
  }

  /** A create statement's header names the table as the dialect's schema,
      a dot and the quoted table name. */
  lemma CreateHeader(d: Postgres, name: string, rs: seq<string>)
    ensures StartsWith(CreateTable(d, name, rs, false), "CREATE TABLE " + d.schema + "." + Quote(name) + " (")
  {
    TableNamesQualified(d, name, name, rs);
    assert "CREATE TABLE " + d.schema + "." + Quote(name) + " (" == "CREATE TABLE " + Qualified(d.schema, name) + " (";
  }
}
