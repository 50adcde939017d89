/** DBDatabaseDriverH2: its configuration, its feature query, and the DDL
    builders, which build each statement piece by piece and append it to a
    script. Every builder is proved to append exactly what the functions
    of H2Ddl describe. */
module H2Driver {
  import opened Wrappers
  import opened DataTypes
  import opened Strings
  import opened Schema
  import opened H2Phrases
  import opened H2Ddl
  import opened SqlScript

  class DBDatabaseDriverH2 {
    var databaseName: Option<string>
    var useSequenceTable: bool
    var sequenceTableName: string
    /** isDDLColumnDefaults() of the base driver. */
    const ddlColumnDefaults: bool
    /** The rendering done by the schema objects and the base driver. */
    const render: Render

    constructor(render: Render, ddlColumnDefaults: bool)
      ensures databaseName == None && !useSequenceTable && sequenceTableName == "Sequences"
      ensures this.render == render && this.ddlColumnDefaults == ddlColumnDefaults
    {
      this.render := render;
      this.ddlColumnDefaults := ddlColumnDefaults;
      databaseName := None;
      useSequenceTable := false;
      sequenceTableName := "Sequences";
    }

    /** The settings DDL generation reads. */
    function Cfg(): Config
      reads this
    {
      Config(useSequenceTable, ddlColumnDefaults, render)
    }

    method SetDatabaseName(name: Option<string>)
      modifies this
      ensures databaseName == name
      ensures useSequenceTable == old(useSequenceTable) && sequenceTableName == old(sequenceTableName)
    {
      databaseName := name;
    }

    method SetUseSequenceTable(b: bool)
      modifies this
      ensures useSequenceTable == b
      ensures databaseName == old(databaseName) && sequenceTableName == old(sequenceTableName)
    {
      useSequenceTable := b;
    }

    method SetSequenceTableName(name: string)
      modifies this
      ensures sequenceTableName == name
      ensures databaseName == old(databaseName) && useSequenceTable == old(useSequenceTable)
    {
      sequenceTableName := name;
    }

    /** isSupported: schema creation always, sequences only with a sequence
      table, nothing else. */
    function IsSupported(f: Feature): (r: bool)
      reads this
      ensures f == CreateSchema ==> r
      ensures f == Sequences ==> (r <==> useSequenceTable)
      ensures f.OtherFeature? ==> !r
    {
      match f
      case CreateSchema => true
      case Sequences => useSequenceTable
      case OtherFeature(_) => false
    }

    // -------------------------------------------------------------------
    // Statement builders that only build strings

    /** The type part of appendColumnDesc's switch. */
    method TypeName(c: ColumnSpec) returns (typ: string)
      ensures typ == TypeSql(Cfg(), c)
    {
      typ := "";
      match c.dataType {
        case Integer =>
          var size := JavaInt(c.size);
          typ := if size >= 8 then "BIGINT" else "INT";
        case AutoInc =>
          typ := "INT";
          if !useSequenceTable {
            typ := typ + " AUTO_INCREMENT";
          }
        case Text =>
          var size := AbsInt(JavaInt(c.size));
          if size == 0 {
            size := 100;
          }
          typ := "VARCHAR(" + IntToString(size) + ")";
        case Char =>
          var size := AbsInt(JavaInt(c.size));
          if size == 0 {
            size := 1;
          }
          typ := "CHAR(" + IntToString(size) + ")";
        case Date => typ := "DATE";
        case DateTime => typ := "DATETIME";
        case Bool => typ := "BIT";
        case Double => typ := "DOUBLE";
        case Decimal =>
          var prec := JavaInt(c.size);
          var scale := JavaInt((c.size - prec as real) * 10.0 + 0.5);
          assert scale == DdlScale(c.size);
          typ := "DECIMAL(" + IntToString(prec) + "," + IntToString(scale) + ")";
        case Clob => typ := "LONGTEXT";
        case Blob =>
          typ := "BLOB";
          if c.size > 0.0 {
            typ := typ + " (" + IntToString(JavaInt(c.size)) + ") ";
          }
        case UniqueId => typ := "CHAR(36)";
        case Float =>
        case Unknown =>
      }
    }

    /** appendColumnDesc: appends the column's description to sql; false
      for UNKNOWN, after the name and a space have been appended. */
    method AppendColumnDesc(c: ColumnSpec, sql: string) returns (out: string, ok: bool)
      ensures out == sql + ColumnFragment(Cfg(), c)
      ensures ok <==> c.dataType != Unknown
    {
      var desc := render.columnName(c.name) + " ";
      if c.dataType == Unknown {
        return sql + desc, false;
      }
      var typ := TypeName(c);
      desc := desc + typ;
      var defaultSql := "";
      if ddlColumnDefaults && !c.IsAutoGenerated() && c.defaultValue != NullValue {
        defaultSql := " DEFAULT " + render.valueString(c.defaultValue, c.dataType);
      }
      desc := desc + defaultSql;
      var notNullSql := "";
      if c.IsRequired() || c.IsAutoGenerated() {
        notNullSql := " NOT NULL";
      }
      desc := desc + notNullSql;
      assert desc == ColumnFragment(Cfg(), c);
      out := sql + desc;
      ok := true;
    }

    /** The addSeparator loop shared by the key, index, relation and view
      builders: the rendered names, separated by ", ". */
    method AppendNames(sql: string, cols: seq<string>) returns (out: string)
      ensures out == sql + Join(Names(Cfg(), cols), ", ")
    {
      var names := "";
      var addSeparator := false;
      for i := 0 to |cols|
        invariant addSeparator <==> i > 0
        invariant names == Join(Names(Cfg(), cols[..i]), ", ")
      {
        ghost var before := Names(Cfg(), cols[..i]);
        assert Names(Cfg(), cols[..i + 1]) == before + [render.columnName(cols[i])];
        JoinSnoc(before, render.columnName(cols[i]), ", ");
        names := names + (if addSeparator then ", " else "");
        names := names + render.columnName(cols[i]);
        addSeparator := true;
      }
      assert cols[..|cols|] == cols;
      out := sql + names;
    }

    /** The CREATE TABLE statement of createTable. */
    method TableStatementSql(t: Table) returns (sql: string)
      ensures sql == TableStatement(Cfg(), t)
    {
      sql := TableBanner + t.name + " --\r\n";
      sql := sql + "CREATE TABLE " + render.tableName(t.name) + " (";
      var columns := "";
      var addSeparator := false;
      for i := 0 to |t.columns|
        invariant columns == ColumnList(Cfg(), t.columns[..i]).0
        invariant addSeparator == ColumnList(Cfg(), t.columns[..i]).1
      {
        assert t.columns[..i + 1][..i] == t.columns[..i];
        columns := columns + (if addSeparator then ",\r\n   " else "\r\n   ");
        var ok;
        columns, ok := AppendColumnDesc(t.columns[i], columns);
        if !ok {
          continue;
        }
        addSeparator := true;
      }
      assert t.columns[..|t.columns|] == t.columns;
      sql := sql + columns;
      var pkSql := "";
      match t.primaryKey {
        case None =>
        case Some(pk) =>
          pkSql := ", PRIMARY KEY (";
          pkSql := AppendNames(pkSql, pk.columns);
          pkSql := pkSql + ")";
      }
      sql := sql + pkSql;
      sql := sql + ")";
      var commentSql := "";
      if t.comment != "" {
        commentSql := " COMMENT = '" + t.comment + "'";
      }
      sql := sql + commentSql;
    }

    /** The CREATE [UNIQUE] INDEX statement of createTable. */
    method IndexStatementSql(t: Table, idx: Index) returns (sql: string)
      ensures sql == IndexStatement(Cfg(), t, idx)
    {
      sql := if idx.kind == Unique then "CREATE UNIQUE INDEX " else "CREATE INDEX ";
      sql := sql + render.elementName(idx.name);
      sql := sql + " ON " + render.tableName(t.name) + " (";
      sql := AppendNames(sql, idx.columns);
      sql := sql + ")";
    }

    /** The foreign-key statement of createRelation. */
    method RelationStatementSql(r: Relation) returns (sql: string)
      ensures sql == RelationStatement(Cfg(), r)
    {
      var refs := r.references;
      sql := RelationBanner + r.name + " --\r\n";
      sql := sql + "ALTER TABLE " + render.tableName(refs[0].source.table);
      sql := sql + " ADD CONSTRAINT " + render.elementName(r.name);
      sql := sql + " FOREIGN KEY (";
      sql := AppendNames(sql, SourceColumns(refs));
      sql := sql + ") REFERENCES " + render.tableName(refs[0].target.table);
      sql := sql + " (";
      sql := AppendNames(sql, TargetColumns(refs));
      sql := sql + ")";
    }

    /** The CREATE VIEW statement of createView, over the command with its
      ORDER BY cleared. */
    method ViewStatementSql(v: View, cmd: Command) returns (sql: string)
      ensures sql == ViewStatement(Cfg(), v, cmd)
    {
      var cleared := cmd.(orderBy := []);
      sql := "CREATE VIEW " + render.tableName(v.name);
      sql := sql + " (";
      sql := AppendNames(sql, v.columns);
      sql := sql + ")\r\nAS\r\n";
      sql := sql + render.commandSql(cleared);
    }

    // -------------------------------------------------------------------
    // Builders that append to a script

    /** createTable: the table statement, then one statement per secondary
      index, in index order. */
    method CreateTable(t: Table, script: DBSQLScript)
      modifies script
      ensures script.stmts == old(script.stmts) + TableStmts(Cfg(), t)
    {
      var sql := TableStatementSql(t);
      script.AddStmt(sql);
      ghost var head := script.stmts;
      for i := 0 to |t.indexes|
        invariant script.stmts == head + IndexStatements(Cfg(), t, t.indexes[..i])
      {
        var idx := t.indexes[i];
        IndexStatementsSnoc(Cfg(), t, t.indexes, i);
        if t.primaryKey == Some(idx) || idx.kind == PrimaryKey {
          continue;
        }
        sql := IndexStatementSql(t, idx);
        script.AddStmt(sql);
        ConcatAssoc(head, IndexStatements(Cfg(), t, t.indexes[..i]), [sql]);
      }
      assert t.indexes[..|t.indexes|] == t.indexes;
      ConcatAssoc(old(script.stmts), [TableStatement(Cfg(), t)], IndexStatements(Cfg(), t, t.indexes));
    }

    /** createRelation: one ALTER TABLE … ADD CONSTRAINT statement. */
    method CreateRelation(r: Relation, script: DBSQLScript)
      modifies script
      ensures script.stmts == old(script.stmts) + [RelationStatement(Cfg(), r)]
    {
      var sql := RelationStatementSql(r);
      script.AddStmt(sql);
    }

    /** createView: NotImplemented without a command; otherwise one
      CREATE VIEW statement. */
    method CreateView(v: View, script: DBSQLScript) returns (o: Outcome)
      modifies script
      ensures script.stmts == old(script.stmts) + ViewEmitted(Cfg(), v).stmts
      ensures o == ViewEmitted(Cfg(), v).outcome
    {
      if v.command.None? {
        return Fail(NotImplemented(v.name + ".createCommand"));
      }
      var sql := ViewStatementSql(v, v.command.value);
      script.AddStmt(sql);
      o := Ok;
    }

    /** alterTable: one ALTER TABLE statement, for any column type. */
    method AlterTable(c: ColumnSpec, owner: string, t: CmdType, script: DBSQLScript)
      modifies script
      ensures script.stmts == old(script.stmts) + [AlterStatement(Cfg(), c, owner, t)]
    {
      var sql := "ALTER TABLE " + render.tableName(owner);
      var ok;
      match t {
        case Create =>
          sql := sql + " ADD ";
          sql, ok := AppendColumnDesc(c, sql);
        case Alter =>
          sql := sql + " ALTER ";
          sql, ok := AppendColumnDesc(c, sql);
        case Drop =>
          sql := sql + " DROP COLUMN " + c.name;
      }
      script.AddStmt(sql);
    }

    /** dropObject: InvalidArg for a missing name, otherwise one DROP
      statement. */
    method DropObject(name: string, objType: string, script: DBSQLScript) returns (o: Outcome)
      modifies script
      ensures script.stmts == old(script.stmts) + DropEmitted(Cfg(), name, objType).stmts
      ensures o == DropEmitted(Cfg(), name, objType).outcome
    {
      if |name| == 0 {
        return Fail(InvalidArgument("name"));
      }
      var sql := "DROP " + objType + " " + render.elementName(name);
      script.AddStmt(sql);
      o := Ok;
    }

    /** The table loop of createDatabase. */
    method CreateTables(ts: seq<Table>, script: DBSQLScript)
      modifies script
      ensures script.stmts == old(script.stmts) + TablesStmts(Cfg(), ts)
    {
      ghost var cfg := Cfg();
      for i := 0 to |ts|
        invariant script.stmts == old(script.stmts) + TablesStmts(cfg, ts[..i])
      {
        CreateTable(ts[i], script);
        TablesStmtsSnoc(cfg, ts, i);
        ConcatAssoc(old(script.stmts), TablesStmts(cfg, ts[..i]), TableStmts(cfg, ts[i]));
      }
      assert ts[..|ts|] == ts;
    }

    /** The relation loop of createDatabase. */
    method CreateRelations(rs: seq<Relation>, script: DBSQLScript)
      modifies script
      ensures script.stmts == old(script.stmts) + RelationsStmts(Cfg(), rs)
    {
      for i := 0 to |rs|
        invariant script.stmts == old(script.stmts) + RelationsStmts(Cfg(), rs[..i])
      {
        CreateRelation(rs[i], script);
        RelationsStmtsSnoc(Cfg(), rs, i);
        ConcatAssoc(old(script.stmts), RelationsStmts(Cfg(), rs[..i]), [RelationStatement(Cfg(), rs[i])]);
      }
      assert rs[..|rs|] == rs;
    }

    /** The view loop of createDatabase; the first view that cannot be
      created ends it. */
    method CreateViews(vs: seq<View>, script: DBSQLScript) returns (o: Outcome)
      modifies script
      ensures script.stmts == old(script.stmts) + ViewsEmitted(Cfg(), vs).stmts
      ensures o == ViewsEmitted(Cfg(), vs).outcome
    {
      o := Ok;
      var i := 0;
      while i < |vs|
        invariant 0 <= i <= |vs|
        invariant o == Ok && ViewsEmitted(Cfg(), vs[..i]).outcome == Ok
        invariant script.stmts == old(script.stmts) + ViewsEmitted(Cfg(), vs[..i]).stmts
      {
        ghost var prev := ViewsEmitted(Cfg(), vs[..i]);
        o := CreateView(vs[i], script);
        ViewsEmittedSnoc(Cfg(), vs, i);
        ConcatAssoc(old(script.stmts), prev.stmts, ViewEmitted(Cfg(), vs[i]).stmts);
        if o.Fail? {
          ViewsEmittedStops(Cfg(), vs, i + 1);
          return;
        }
        i := i + 1;
      }
      assert vs[..|vs|] == vs;
    }

    /** createDatabase: every table, then every relation, then every view,
      stopping at the first view that cannot be created. */
    method CreateDatabase(db: Database, script: DBSQLScript) returns (o: Outcome)
      modifies script
      ensures script.stmts == old(script.stmts) + DatabaseEmitted(Cfg(), db).stmts
      ensures o == DatabaseEmitted(Cfg(), db).outcome
    {
      ghost var start := script.stmts;
      CreateTables(db.tables, script);
      CreateRelations(db.relations, script);
      o := CreateViews(db.views, script);
      ghost var tables, relations := TablesStmts(Cfg(), db.tables), RelationsStmts(Cfg(), db.relations);
      ConcatAssoc(start, tables, relations);
      ConcatAssoc(start, tables + relations, ViewsEmitted(Cfg(), db.views).stmts);
    }

    /** getDDLScript: checks the object, then dispatches on its class and
      the command; the view and relation cases fall through as in the
      source, so they end in NotImplemented. */
    method GetDDLScript(t: CmdType, dbo: Option<DbObject>, script: DBSQLScript) returns (o: Outcome)
      modifies script
      ensures script.stmts == old(script.stmts) + DDLScript(Cfg(), this, t, dbo).stmts
      ensures o == DDLScript(Cfg(), this, t, dbo).outcome
    {
      if dbo.None? || dbo.value.driver != this {
        return Fail(InvalidArgument("dbo"));
      }
      var failure := Fail(NotImplemented("getDDLScript." + dbo.value.className + ("." + CmdName(t))));
      match dbo.value.kind {
        case DatabaseObj(db) =>
          match t {
            case Create => o := CreateDatabase(db, script);
            case Drop => o := DropObject(db.schema, "DATABASE", script);
            case Alter => o := failure;
          }
        case TableObj(tb) =>
          match t {
            case Create => CreateTable(tb, script); o := Ok;
            case Drop => o := DropObject(tb.name, "TABLE", script);
            case Alter => o := failure;
          }
        case ViewObj(v) =>
          o := Ok;
          if t == Create {
            o := CreateView(v, script);
          }
          if o.Ok? && t != Alter {
            o := DropObject(v.name, "VIEW", script);
          }
          if o.Ok? {
            o := failure;
          }
        case RelationObj(r) =>
          o := Ok;
          if t == Create {
            CreateRelation(r, script);
          }
          if t != Alter {
            o := DropObject(r.name, "CONSTRAINT", script);
          }
          if o.Ok? {
            o := failure;
          }
        case ColumnObj(c, owner) =>
          AlterTable(c, owner, t, script);
          o := Ok;
        case OtherObj =>
          o := Fail(InvalidArgument("dbo"));
      }
    }
  }
}
