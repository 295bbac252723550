/** The Postgres dialect: the one place where instructions become SQL text.
    Every operation is a pure function of the dialect value (its schema) and
    its arguments; only `add_index` has no rendering. */
module PostgresDialect {
  import opened Strings
  import opened Results
  import opened Column

  /** The dialect; `schema` qualifies every table name. */
  datatype Postgres = Postgres(schema: string)

  /** `Postgres::new()` / `default()`: the `public` schema. */
  function NewPostgres(): (d: Postgres)
    ensures d.schema == "public"
  {
    Postgres("public")
  }

  /** `schema."name"`. */
  function Qualified(schema: string, name: string): (r: string) {
    schema + "." + Quote(name)
  }

  function CreateTable(d: Postgres, name: string, changes: seq<string>, ifNotExists: bool): (r: string)
    ensures StartsWith(r, "CREATE TABLE ") && EndsWith(r, "\n);")
  {
    "CREATE TABLE " + (if ifNotExists then "IF NOT EXISTS " else "") + Qualified(d.schema, name)
    + " (\n" + Join(changes, ",\n") + "\n);"
  }

  function AlterTable(d: Postgres, name: string, changes: seq<string>): (r: string)
    ensures StartsWith(r, "ALTER TABLE ") && EndsWith(r, ";")
  {
    "ALTER TABLE " + Qualified(d.schema, name) + "\n" + Join(changes, ",\n") + ";"
  }

  function RenameTable(d: Postgres, name: string, newTableName: string): (r: string)
    ensures StartsWith(r, "ALTER TABLE ") && EndsWith(r, ";")
  {
    "ALTER TABLE " + Qualified(d.schema, name) + " RENAME TO " + Qualified(d.schema, newTableName) + ";"
  }

  function DropTable(d: Postgres, name: string): (r: string)
    ensures StartsWith(r, "DROP TABLE ") && EndsWith(r, ";")
  {
    "DROP TABLE " + Qualified(d.schema, name) + ";"
  }

  /** A column definition: `ADD COLUMN ` exactly when `withPrefix`, then the
      quoted name, the type and the constraint suffix. */
  function AddColumn(d: Postgres, name: string, withPrefix: bool, ct: ColumnType, constraints: Constraints): (r: string)
  {
    (if withPrefix then "ADD COLUMN " else "") + ColumnDefinition(name, ct, constraints)
  }

  function ColumnDefinition(name: string, ct: ColumnType, constraints: Constraints): (r: string)
    ensures StartsWith(r, Quote(name) + " " + ColumnTypeSql(ct))
  {
    Quote(name) + " " + ColumnTypeSql(ct) + ConstraintsSql(constraints)
  }

  function RenameColumn(d: Postgres, name: string, newName: string): (r: string)
    ensures StartsWith(r, "RENAME COLUMN " + Quote(name) + " TO ")
    ensures EndsWith(r, " TO " + Quote(newName))
  {
    "RENAME COLUMN " + Quote(name) + " TO " + Quote(newName)
  }

  /** A type change; a conversion method is opaque text appended after `USING`. */
  function AlterColumn(d: Postgres, name: string, ct: ColumnType, conversionMethod: Option<string>): (r: string)
    ensures StartsWith(r, "ALTER COLUMN " + Quote(name) + " TYPE " + ColumnTypeSql(ct))
    ensures conversionMethod.Some? ==> EndsWith(r, " USING " + conversionMethod.value)
  {
    "ALTER COLUMN " + Quote(name) + " TYPE " + ColumnTypeSql(ct)
    + (match conversionMethod case Some(u) => " USING " + u case None => "")
  }

  /** `DROP COLUMN`, guarded by `IF EXISTS` when `ifExists`. */
  function DropColumn(d: Postgres, name: string, ifExists: bool): (r: string)
    ensures StartsWith(r, "DROP COLUMN ") && EndsWith(r, Quote(name))
  {
    "DROP COLUMN " + (if ifExists then "IF EXISTS " else "") + Quote(name)
  }

  /** A generic (combined) index has no rendering in this dialect. */
  function AddIndex(d: Postgres, tableName: string, columns: seq<string>, idxName: Option<string>): (r: Result<string>)
    ensures r == Unsupported("add_index")
  {
    Unsupported("add_index")
  }

  /** A foreign-key clause: `ADD ` exactly when `addClause`, then
      `CONSTRAINT name ` exactly when a name is given (the name is not
      quoted), then the key. The referenced table is quoted but not
      schema-qualified. */
  function AddForeignIndex(d: Postgres, columnName: string, foreignTableName: string, foreignColumnName: string,
                           idxName: Option<string>, addClause: bool): (r: string)
    ensures EndsWith(r, ForeignKey(columnName, foreignTableName, foreignColumnName))
  {
    (if addClause then "ADD " else "")
    + (match idxName case Some(x) => "CONSTRAINT " + x + " " case None => "")
    + ForeignKey(columnName, foreignTableName, foreignColumnName)
  }

  function ForeignKey(columnName: string, foreignTableName: string, foreignColumnName: string): (r: string)
    ensures StartsWith(r, "FOREIGN KEY(")
  {
    "FOREIGN KEY(" + Quote(columnName) + ") REFERENCES " + Quote(foreignTableName) + "(" + Quote(foreignColumnName) + ")"
  }

  function AddPrimaryIndex(d: Postgres, columns: seq<string>): (r: string)
    ensures StartsWith(r, "PRIMARY KEY(") && EndsWith(r, ")")
  {
    "PRIMARY KEY(" + Join(QuoteAll(columns), ", ") + ")"
  }

  /** The Postgres name of a column type. */
  function ColumnTypeSql(ct: ColumnType): (r: string)
    ensures |r| > 0 && (r[0] == 'V' <==> ct.Varchar?)
  {
    match ct
    case Uuid => "uuid"
    case Bool => "boolean"
    case Varchar(s) => "VARCHAR(" + Decimal(s) + ")"
    case Real => "real"
    case Text => "text"
    case Timestamp => "timestamp"
    case TimestampTz => "timestamp with time zone"
    case Integer => "integer"
    case Jsonb => "jsonb"
  }

  /** The four optional clauses in their fixed order, empty when absent. */
  function ConstraintClauses(c: Constraints): (r: seq<string>) {
    [ if c.primary then "PRIMARY KEY" else "",
      if c.notNull then "NOT NULL" else "",
      if c.unique then "UNIQUE" else "",
      match c.default case NoDefault => "" case Plain(s) => "DEFAULT " + s ]
  }

  /** The constraint suffix of a column definition: the clauses joined by
      spaces and trimmed at both ends, then prefixed by one space unless
      nothing is left. */
  function ConstraintsSql(c: Constraints): (r: string)
    ensures r != [] ==> r[0] == ' ' && |r| >= 2
  {
    var joined := Trim(Join(ConstraintClauses(c), " "));
    if joined != [] then " " + joined else ""
  }

  // ---------------------------------------------------------------------
  // Properties of the dialect

  /** `IF NOT EXISTS` is inserted right after `CREATE TABLE ` and the rest of
      the statement is unchanged. */
  lemma CreateTableGuard(d: Postgres, name: string, changes: seq<string>)
    ensures var plain := CreateTable(d, name, changes, false);
            CreateTable(d, name, changes, true) == "CREATE TABLE IF NOT EXISTS " + plain[|"CREATE TABLE "|..]
  {
  }

  /** The nested renders, joined by `,\n`, go exactly between the `(\n` and
      the `\n);` of the statement for no changes, which ends in `(\n\n);`. */
  lemma CreateTableNests(d: Postgres, name: string, changes: seq<string>, ifNotExists: bool)
    ensures var e := CreateTable(d, name, [], ifNotExists);
            && EndsWith(e, " (\n\n);")
            && CreateTable(d, name, changes, ifNotExists) == e[..|e| - 3] + Join(changes, ",\n") + e[|e| - 3..]
  {
  }

  /** The nested renders, joined by `,\n`, go exactly between the header line
      and the `;` of the statement for no changes, which ends in `"\n;`. */
  lemma AlterTableNests(d: Postgres, name: string, changes: seq<string>)
    ensures var e := AlterTable(d, name, []);
            && EndsWith(e, "\"\n;")
            && AlterTable(d, name, changes) == e[..|e| - 1] + Join(changes, ",\n") + ";"
  {
  }

  /** Renaming and dropping name the table exactly as creating it does:
      schema-qualified with the dialect's one schema. */
  lemma TableNamesQualified(d: Postgres, name: string, newTableName: string, changes: seq<string>)
    ensures var q := Qualified(d.schema, name);
            && StartsWith(CreateTable(d, name, changes, false), "CREATE TABLE " + q + " (")
            && StartsWith(AlterTable(d, name, changes), "ALTER TABLE " + q + "\n")
            && RenameTable(d, name, newTableName) == "ALTER TABLE " + q + " RENAME TO " + Qualified(d.schema, newTableName) + ";"
            && DropTable(d, name) == "DROP TABLE " + q + ";"
  {
  }

  /** The `ADD COLUMN ` prefix is the only difference the flag makes, and a
      definition starts with it exactly when the flag is set. */
  lemma AddColumnPrefix(d: Postgres, name: string, withPrefix: bool, ct: ColumnType, constraints: Constraints)
    ensures AddColumn(d, name, true, ct, constraints) == "ADD COLUMN " + AddColumn(d, name, false, ct, constraints)
    ensures AddColumn(d, name, false, ct, constraints) == Quote(name) + " " + ColumnTypeSql(ct) + ConstraintsSql(constraints)
    ensures withPrefix <==> StartsWith(AddColumn(d, name, withPrefix, ct, constraints), "ADD COLUMN ")
  {
    var def := ColumnDefinition(name, ct, constraints);
    assert "" + def == def;
    if !withPrefix {
      assert def[0] == '"';
    }
  }

  /** A conversion method only appends ` USING <text>`. */
  lemma AlterColumnUsing(d: Postgres, name: string, ct: ColumnType, e: string)
    ensures AlterColumn(d, name, ct, Some(e)) == AlterColumn(d, name, ct, None) + " USING " + e
    ensures AlterColumn(d, name, ct, None) == "ALTER COLUMN " + Quote(name) + " TYPE " + ColumnTypeSql(ct)
  {
  }

  /** `IF EXISTS ` is inserted right after `DROP COLUMN ` and nothing else
      changes; the statement carries the guard exactly when `ifExists`. */
  lemma DropColumnGuard(d: Postgres, name: string, ifExists: bool)
    ensures DropColumn(d, name, true) == "DROP COLUMN IF EXISTS " + DropColumn(d, name, false)[|"DROP COLUMN "|..]
    ensures DropColumn(d, name, false) == "DROP COLUMN " + Quote(name)
    ensures ifExists <==> StartsWith(DropColumn(d, name, ifExists), "DROP COLUMN IF EXISTS ")
  {
    if !ifExists {
      assert DropColumn(d, name, false)[12] == '"';
    }
  }

  /** Without a name the clause is the bare key, or `ADD ` and the key. */
  lemma AddForeignIndexUnnamed(d: Postgres, col: string, ftable: string, fcol: string)
    ensures AddForeignIndex(d, col, ftable, fcol, None, false) == ForeignKey(col, ftable, fcol)
    ensures AddForeignIndex(d, col, ftable, fcol, None, true) == "ADD " + ForeignKey(col, ftable, fcol)
  {
    var key := ForeignKey(col, ftable, fcol);
    assert "" + "" + key == key;
    assert "ADD " + "" + key == "ADD " + key;
  }

  /** With a name the key is preceded by `CONSTRAINT <name> `, and `ADD `
      goes in front of that. */
  lemma AddForeignIndexNamed(d: Postgres, col: string, ftable: string, fcol: string, n: string)
    ensures AddForeignIndex(d, col, ftable, fcol, Some(n), false) == "CONSTRAINT " + n + " " + ForeignKey(col, ftable, fcol)
    ensures AddForeignIndex(d, col, ftable, fcol, Some(n), true) == "ADD " + AddForeignIndex(d, col, ftable, fcol, Some(n), false)
  {
    var key := ForeignKey(col, ftable, fcol);
    var named := "CONSTRAINT " + n + " ";
    assert "" + named + key == named + key;
    assert "ADD " + named + key == "ADD " + (named + key);
  }

  /** `ADD ` goes in front of the clause when `addClause`; before the key
      comes `CONSTRAINT <name> ` (the name unquoted) when a name is given;
      the key itself names the column, the foreign table and the foreign
      column, each quoted, the table without a schema. */
  lemma AddForeignIndexParts(d: Postgres, col: string, ftable: string, fcol: string, idxName: Option<string>)
    ensures AddForeignIndex(d, col, ftable, fcol, None, false)
            == "FOREIGN KEY(" + Quote(col) + ") REFERENCES " + Quote(ftable) + "(" + Quote(fcol) + ")"
    ensures idxName.Some? ==> AddForeignIndex(d, col, ftable, fcol, idxName, false)
                              == "CONSTRAINT " + idxName.value + " " + AddForeignIndex(d, col, ftable, fcol, None, false)
    ensures AddForeignIndex(d, col, ftable, fcol, idxName, true) == "ADD " + AddForeignIndex(d, col, ftable, fcol, idxName, false)
  {
    AddForeignIndexUnnamed(d, col, ftable, fcol);
    if idxName.Some? {
      AddForeignIndexNamed(d, col, ftable, fcol, idxName.value);
    }
  }

  /** The clause starts with `ADD ` exactly when `addClause`, and without it
      starts with `CONSTRAINT ` exactly when a name is given. */
  lemma AddForeignIndexPrefixes(d: Postgres, col: string, ftable: string, fcol: string, idxName: Option<string>, addClause: bool)
    ensures addClause <==> StartsWith(AddForeignIndex(d, col, ftable, fcol, idxName, addClause), "ADD ")
    ensures idxName.Some? <==> StartsWith(AddForeignIndex(d, col, ftable, fcol, idxName, false), "CONSTRAINT ")
  {
    AddForeignIndexParts(d, col, ftable, fcol, idxName);
    var plain := AddForeignIndex(d, col, ftable, fcol, idxName, false);
    var key := AddForeignIndex(d, col, ftable, fcol, None, false);
    assert key[0] == 'F';
    assert |plain| > 0 && (plain[0] == 'F' || plain[0] == 'C');
    assert idxName.Some? <==> plain[0] == 'C';
  }

  /** The primary key lists its columns quoted, in the given order: one column
      is `PRIMARY KEY("c")` and each further column adds `, "c"` before the
      closing parenthesis. */
  lemma AddPrimaryIndexOrder(d: Postgres, columns: seq<string>, c: string)
    ensures AddPrimaryIndex(d, []) == "PRIMARY KEY()"
    ensures AddPrimaryIndex(d, [c]) == "PRIMARY KEY(" + Quote(c) + ")"
    ensures columns != [] ==>
              var p := AddPrimaryIndex(d, columns);
              AddPrimaryIndex(d, columns + [c]) == p[..|p| - 1] + ", " + Quote(c) + ")"
  {
    assert QuoteAll([c]) == [Quote(c)];
    if columns != [] {
      assert QuoteAll(columns + [c]) == QuoteAll(columns) + [Quote(c)];
      JoinSnoc(QuoteAll(columns), Quote(c), ", ");
    }
  }

  /** The type mapping is one-to-one: different column types never render as
      the same type name. */
  lemma ColumnTypeInjective(a: ColumnType, b: ColumnType)
    requires ColumnTypeSql(a) == ColumnTypeSql(b)
    ensures a == b
  {
    if a.Varchar? && b.Varchar? {
      var s := ColumnTypeSql(a);
      var m, n := Decimal(a.size), Decimal(b.size);
      assert m == s[8..|s| - 1] == n;
      DecimalInjective(a.size, b.size);
    }
  }

  /** The type names of the mapping, with a `VARCHAR` length spelled in decimal. */
  lemma ColumnTypeNames()
    ensures ColumnTypeSql(Uuid) == "uuid" && ColumnTypeSql(Bool) == "boolean"
    ensures ColumnTypeSql(Varchar(255)) == "VARCHAR(255)"
    ensures ColumnTypeSql(Real) == "real" && ColumnTypeSql(Text) == "text"
    ensures ColumnTypeSql(Timestamp) == "timestamp" && ColumnTypeSql(TimestampTz) == "timestamp with time zone"
    ensures ColumnTypeSql(Integer) == "integer" && ColumnTypeSql(Jsonb) == "jsonb"
  {
    assert Decimal(25) == "25";
    assert Decimal(255) == "255";
  }

  /** The constraint suffix is empty exactly when no flag is set and there is
      no default; otherwise it starts with one space followed by a clause. */
  lemma ConstraintsEmptyIff(c: Constraints)
    ensures ConstraintsSql(c) == "" <==> NoConstraints(c)
    ensures ConstraintsSql(c) != "" ==> ConstraintsSql(c)[0] == ' ' && !IsWhitespace(ConstraintsSql(c)[1])
  {
    var cl := ConstraintClauses(c);
    var p, n, u, d := cl[0], cl[1], cl[2], cl[3];
    assert cl == [p, n, u, d];
    Join4(p, n, u, d, " ");
    ClausesBlankIffEmpty(c);
    AllWhitespaceConcat(p, " ");
    AllWhitespaceConcat(p + " ", n);
    AllWhitespaceConcat(p + " " + n, " ");
    AllWhitespaceConcat(p + " " + n + " ", u);
    AllWhitespaceConcat(p + " " + n + " " + u, " ");
    AllWhitespaceConcat(p + " " + n + " " + u + " ", d);
    assert AllWhitespace(" ");
  }

  /** A constraint clause is blank exactly when it is absent: every present
      clause starts with a letter. */
  lemma ClausesBlankIffEmpty(c: Constraints)
    ensures var cl := ConstraintClauses(c);
            && (AllWhitespace(cl[0]) <==> !c.primary)
            && (AllWhitespace(cl[1]) <==> !c.notNull)
            && (AllWhitespace(cl[2]) <==> !c.unique)
            && (AllWhitespace(cl[3]) <==> c.default.NoDefault?)
  {
    var cl := ConstraintClauses(c);
    if c.primary {
      assert cl[0][0] == 'P';
    }
    if c.notNull {
      assert cl[1][0] == 'N';
    }
    if c.unique {
      assert cl[2][0] == 'U';
    }
    if c.default.Plain? {
      assert cl[3][0] == 'D';
    }
  }

  /** The default expression does not end in whitespace (so `trim` does not
      reach into it). */
  predicate DefaultEndsClean(c: Constraints) {
    c.default.Plain? ==> c.default.expr != [] && !IsWhitespace(c.default.expr[|c.default.expr| - 1])
  }

  /** The constraint suffix keeps the clauses in the fixed order PRIMARY KEY,
      NOT NULL, UNIQUE, DEFAULT: from the first present clause to the last
      present one, joined by single spaces, so an absent clause between two
      present ones leaves a double space. */
  lemma ConstraintsClauseOrder(c: Constraints)
    requires DefaultEndsClean(c)
    ensures var kept := DropTrailingEmpty(DropLeadingEmpty(ConstraintClauses(c)));
            ConstraintsSql(c) == if NoConstraints(c) then "" else " " + Join(kept, " ")
  {
    ClausesClean(c);
    TrimJoin(ConstraintClauses(c));
    ConstraintsEmptyIff(c);
  }

  /** No clause has whitespace at either end, given a default that does not
      end in whitespace. */
  lemma ClausesClean(c: Constraints)
    requires DefaultEndsClean(c)
    ensures var cl := ConstraintClauses(c);
            forall i :: 0 <= i < |cl| ==> Clean(cl[i])
  {
    var cl := ConstraintClauses(c);
    assert Clean(cl[0]);
    assert Clean(cl[1]);
    assert Clean(cl[2]);
    if c.default.Plain? {
      var e := c.default.expr;
      assert cl[3][|cl[3]| - 1] == e[|e| - 1];
    }
    assert Clean(cl[3]);
  }

  lemma KeptPrimaryOnly(c: Constraints) returns (p: string)
    requires c.primary && !c.notNull && !c.unique && c.default == NoDefault
    ensures DropTrailingEmpty(DropLeadingEmpty(ConstraintClauses(c))) == [p]
    ensures " " + p == " PRIMARY KEY"
  {
    p := "PRIMARY KEY";
    assert ConstraintClauses(c) == [p, "", "", ""];
    KeepFirstOfFour(p);
  }

  /** The suffixes the dialect's unit tests pin: a lone primary key is one
      clause. */
  lemma PrimaryOnly(c: Constraints)
    requires c.primary && !c.notNull && !c.unique && c.default == NoDefault
    ensures ConstraintsSql(c) == " PRIMARY KEY"
  {
    var p := KeptPrimaryOnly(c);
    ConstraintsClauseOrder(c);
    Join1(p, " ");
    var r := ConstraintsSql(c);
    assert r == " " + p;
  }

  lemma KeptNotNullUnique(c: Constraints) returns (n: string, u: string)
    requires !c.primary && c.notNull && c.unique && c.default == NoDefault
    ensures DropTrailingEmpty(DropLeadingEmpty(ConstraintClauses(c))) == [n, u]
    ensures " " + (n + " " + u) == " NOT NULL UNIQUE"
  {
    n, u := "NOT NULL", "UNIQUE";
    assert ConstraintClauses(c) == ["", n, u, ""];
    KeepMiddleOfFour(n, u);
  }

  /** Two adjacent clauses are separated by one space. */
  lemma NotNullUnique(c: Constraints)
    requires !c.primary && c.notNull && c.unique && c.default == NoDefault
    ensures ConstraintsSql(c) == " NOT NULL UNIQUE"
  {
    var n, u := KeptNotNullUnique(c);
    ConstraintsClauseOrder(c);
    Join2(n, u, " ");
    var r := ConstraintsSql(c);
    assert r == " " + (n + " " + u);
  }

  lemma KeptDefaultOnly(c: Constraints, e: string) returns (d: string)
    requires !c.primary && !c.notNull && !c.unique && c.default == Plain(e)
    ensures DropTrailingEmpty(DropLeadingEmpty(ConstraintClauses(c))) == [d]
    ensures " " + d == " DEFAULT " + e
  {
    d := "DEFAULT " + e;
    assert ConstraintClauses(c) == ["", "", "", d];
    KeepLastOfFour(d);
  }

  /** A default alone renders as `DEFAULT` and its expression. */
  lemma DefaultOnly(c: Constraints, e: string)
    requires !c.primary && !c.notNull && !c.unique && c.default == Plain(e)
    requires e != [] && !IsWhitespace(e[|e| - 1])
    ensures ConstraintsSql(c) == " DEFAULT " + e
  {
    var d := KeptDefaultOnly(c, e);
    ConstraintsClauseOrder(c);
    Join1(d, " ");
    var r := ConstraintsSql(c);
    assert r == " " + d;
  }

  lemma AllClausesSpelled(c: Constraints, e: string) returns (p: string, n: string, u: string, d: string)
    requires c.primary && c.notNull && c.unique && c.default == Plain(e)
    ensures ConstraintClauses(c) == [p, n, u, d] && |p| != 0
    ensures " " + (p + " " + n + " " + u + " " + d) == " PRIMARY KEY NOT NULL UNIQUE DEFAULT " + e
  {
    p, n, u, d := "PRIMARY KEY", "NOT NULL", "UNIQUE", "DEFAULT " + e;
    assert " " + (p + " " + n + " " + u + " ") == " PRIMARY KEY NOT NULL UNIQUE ";
  }

  /** All four clauses in their fixed order, single-space joined. */
  lemma AllClauses(c: Constraints, e: string)
    requires c.primary && c.notNull && c.unique && c.default == Plain(e)
    requires e != [] && !IsWhitespace(e[|e| - 1])
    ensures ConstraintsSql(c) == " PRIMARY KEY NOT NULL UNIQUE DEFAULT " + e
  {
    var p, n, u, d := AllClausesSpelled(c, e);
    var cl := [p, n, u, d];
    assert LeadingEmpty(cl) == 0 && TrailingEmpty(cl) == 0;
    assert cl[0..][..4] == cl;
    ConstraintsClauseOrder(c);
    Join4(p, n, u, d, " ");
    var r := ConstraintsSql(c);
    assert r == " " + (p + " " + n + " " + u + " " + d);
  }

  lemma KeptMiddleGap(c: Constraints) returns (p: string, u: string)
    requires c.primary && !c.notNull && c.unique && c.default == NoDefault
    ensures DropTrailingEmpty(DropLeadingEmpty(ConstraintClauses(c))) == [p, "", u]
    ensures " " + (p + " " + "" + " " + u) == " PRIMARY KEY  UNIQUE"
  {
    p, u := "PRIMARY KEY", "UNIQUE";
    assert ConstraintClauses(c) == [p, "", u, ""];
    KeepGapOfFour(p, u);
  }

  /** An absent clause between two present ones leaves a double space. */
  lemma MiddleGap(c: Constraints)
    requires c.primary && !c.notNull && c.unique && c.default == NoDefault
    ensures ConstraintsSql(c) == " PRIMARY KEY  UNIQUE"
  {
    var p, u := KeptMiddleGap(c);
    ConstraintsClauseOrder(c);
    Join3(p, "", u, " ");
    var r := ConstraintsSql(c);
    assert r == " " + (p + " " + "" + " " + u);
  }
}
