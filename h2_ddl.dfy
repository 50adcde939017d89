/** What the H2 driver's DDL generation appends to a script, stated as
    functions of the schema and the driver's configuration, and the
    properties of that output. */
module H2Ddl {
  import opened Wrappers
  import opened DataTypes
  import opened Strings
  import opened Schema

  /** Rendering done by classes that are not part of this model. */
  datatype Render = Render(
    tableName: string -> string,               // DBRowSet.addSQL(sql, CTX_FULLNAME)
    columnName: string -> string,              // DBColumn.addSQL(sql, CTX_NAME)
    elementName: string -> string,             // DBDatabaseDriver.appendElementName
    valueString: (Value, DataType) -> string,  // DBDatabaseDriver.getValueString
    commandSql: Command -> string)             // DBCommandExpr.addSQL(sql, CTX_DEFAULT)

  /** The driver settings that DDL generation reads. */
  datatype Config = Config(useSequenceTable: bool, ddlColumnDefaults: bool, render: Render)

  /** The statements one request appends to the script, and how it ends. */
  datatype Emitted = Emitted(stmts: seq<string>, outcome: Outcome)

  // ---------------------------------------------------------------------
  // Column descriptions

  /** A character length: the absolute value of the truncated size, or
      whenZero for size 0. */
  function CharLength(size: real, whenZero: int): int
  {
    var s := AbsInt(JavaInt(size));
    if s == 0 then whenZero else s
  }

  /** The scale that DDL renders for a DECIMAL: the tenths of size, rounded. */
  function DdlScale(size: real): int
  {
    var prec := JavaInt(size);
    JavaInt((size - prec as real) * 10.0 + 0.5)
  }

  /** The H2 type of a column (nothing for UNKNOWN and FLOAT, which the
      driver's switch has no case for). */
  function TypeSql(cfg: Config, c: ColumnSpec): string
  {
    match c.dataType
    case Integer => if JavaInt(c.size) >= 8 then "BIGINT" else "INT"
    case AutoInc => if cfg.useSequenceTable then "INT" else "INT AUTO_INCREMENT"
    case Text => "VARCHAR(" + IntToString(CharLength(c.size, 100)) + ")"
    case Char => "CHAR(" + IntToString(CharLength(c.size, 1)) + ")"
    case Date => "DATE"
    case DateTime => "DATETIME"
    case Bool => "BIT"
    case Double => "DOUBLE"
    case Decimal => "DECIMAL(" + IntToString(JavaInt(c.size)) + "," + IntToString(DdlScale(c.size)) + ")"
    case Clob => "LONGTEXT"
    case Blob => if c.size > 0.0 then "BLOB (" + IntToString(JavaInt(c.size)) + ") " else "BLOB"
    case UniqueId => "CHAR(36)"
    case Float => ""
    case Unknown => ""
  }

  /** DEFAULT is rendered when DDL defaults are on, the column is not
      auto-generated and it has a default value. */
  predicate HasDefaultClause(cfg: Config, c: ColumnSpec)
  {
    cfg.ddlColumnDefaults && !c.IsAutoGenerated() && c.defaultValue != NullValue
  }

  function DefaultClause(cfg: Config, c: ColumnSpec): string
  {
    if HasDefaultClause(cfg, c) then " DEFAULT " + cfg.render.valueString(c.defaultValue, c.dataType) else ""
  }

  function NotNullClause(c: ColumnSpec): string
  {
    if c.IsRequired() || c.IsAutoGenerated() then " NOT NULL" else ""
  }

  /** What appendColumnDesc appends for a column: for UNKNOWN only the name
      and a space, which are appended before the type is inspected. */
  function ColumnFragment(cfg: Config, c: ColumnSpec): string
  {
    var head := cfg.render.columnName(c.name) + " ";
    if c.dataType == Unknown then head
    else head + TypeSql(cfg, c) + DefaultClause(cfg, c) + NotNullClause(c)
  }

  /** The column type mapping, type by type. */
  lemma TypeMapping(cfg: Config, c: ColumnSpec)
    ensures c.dataType == Integer ==>
              TypeSql(cfg, c) == (if JavaInt(c.size) >= 8 then "BIGINT" else "INT")
    ensures c.dataType == AutoInc ==>
              (TypeSql(cfg, c) == "INT AUTO_INCREMENT" <==> !cfg.useSequenceTable)
              && (TypeSql(cfg, c) == "INT" <==> cfg.useSequenceTable)
    ensures c.dataType == Text && JavaInt(c.size) == 0 ==> TypeSql(cfg, c) == "VARCHAR(100)"
    ensures c.dataType == Char && JavaInt(c.size) == 0 ==> TypeSql(cfg, c) == "CHAR(1)"
    ensures c.dataType == Text && JavaInt(c.size) != 0 ==>
              TypeSql(cfg, c) == "VARCHAR(" + IntToString(AbsInt(JavaInt(c.size))) + ")"
    ensures c.dataType == Char && JavaInt(c.size) != 0 ==>
              TypeSql(cfg, c) == "CHAR(" + IntToString(AbsInt(JavaInt(c.size))) + ")"
    ensures c.dataType == UniqueId ==> TypeSql(cfg, c) == "CHAR(36)"
  {
  }

  /** A negative text size renders like its absolute value. */
  lemma CharLengthIgnoresSign(size: real, whenZero: int)
    ensures CharLength(-size, whenZero) == CharLength(size, whenZero)
    ensures CharLength(size, whenZero) > 0 || CharLength(size, whenZero) == whenZero
  {
  }

  /** DECIMAL(p,s) for a size k/10 with one decimal: p is the whole part,
      s the tenths digit, and s is the scale setSize stores for that size. */
  lemma DecimalOfTenths(cfg: Config, c: ColumnSpec, k: nat)
    requires c.dataType == Decimal && c.size == k as real / 10.0
    ensures TypeSql(cfg, c) == "DECIMAL(" + IntToString(k / 10) + "," + IntToString(k % 10) + ")"
    ensures DdlScale(c.size) == SizeScale(c.size)
  {
    SizeScaleOfTenths(k);
    var q, d := k / 10, k % 10;
    assert JavaInt(c.size) == q;
    assert (c.size - q as real) * 10.0 + 0.5 == d as real + 0.5;
    assert DdlScale(c.size) == d;
  }

  lemma ThreeParts(a: string, b: string, c: string)
    ensures StartsWith(a + b + c, a)
    ensures (a + b + c)[|a|..] == b + c
    ensures (a + b + c)[|a| + |b|..] == c
  {
    assert (a + b + c)[..|a|] == a;
  }

  /** A column description ends in NOT NULL exactly when the column is
      required or auto-generated; otherwise it ends after the DEFAULT part. */
  lemma ColumnNotNull(cfg: Config, c: ColumnSpec)
    requires c.dataType != Unknown
    ensures var f := ColumnFragment(cfg, c);
            var head := cfg.render.columnName(c.name) + " " + TypeSql(cfg, c);
            && StartsWith(f, head)
            && (c.IsRequired() || c.IsAutoGenerated() <==> f[|head| + |DefaultClause(cfg, c)|..] == " NOT NULL")
            && (!(c.IsRequired() || c.IsAutoGenerated()) <==> |f| == |head| + |DefaultClause(cfg, c)|)
  {
    var head := cfg.render.columnName(c.name) + " " + TypeSql(cfg, c);
    ThreeParts(head, DefaultClause(cfg, c), NotNullClause(c));
  }

  /** Right after the type comes " DEFAULT " exactly when DDL defaults
      are on, the column is not auto-generated and it has a default. */
  lemma ColumnDefault(cfg: Config, c: ColumnSpec)
    requires c.dataType != Unknown
    ensures var f := ColumnFragment(cfg, c);
            var head := cfg.render.columnName(c.name) + " " + TypeSql(cfg, c);
            |head| <= |f| && (HasDefaultClause(cfg, c) <==> StartsWith(f[|head|..], " DEFAULT "))
  {
    var head := cfg.render.columnName(c.name) + " " + TypeSql(cfg, c);
    var dc, nn := DefaultClause(cfg, c), NotNullClause(c);
    ThreeParts(head, dc, nn);
    DefaultThenNotNull(dc, nn);
  }

  /** A DEFAULT part followed by a NOT NULL part starts with " DEFAULT "
      exactly when the DEFAULT part is present. */
  lemma DefaultThenNotNull(dc: string, nn: string)
    requires dc == "" || StartsWith(dc, " DEFAULT ")
    requires nn == "" || nn == " NOT NULL"
    ensures dc != "" <==> StartsWith(dc + nn, " DEFAULT ")
  {
    if dc != "" {
      assert (dc + nn)[..9] == dc[..9];
    } else if nn != "" {
      assert dc + nn == nn;
      assert nn[1] == 'N' && " DEFAULT "[1] == 'D';
    } else {
      assert dc + nn == "";
    }
  }

  // ---------------------------------------------------------------------
  // CREATE TABLE and its indexes

  function Separator(addSeparator: bool): string
  {
    if addSeparator then ",\r\n   " else "\r\n   "
  }

  /** The column part of CREATE TABLE, built column by column, and whether
      the next column is preceded by a comma: an UNKNOWN column leaves its
      separator and its name behind, without setting the flag. */
  function ColumnList(cfg: Config, cols: seq<ColumnSpec>): (string, bool)
  {
    if |cols| == 0 then ("", false)
    else
      var prev := ColumnList(cfg, cols[..|cols| - 1]);
      var c := cols[|cols| - 1];
      (prev.0 + Separator(prev.1) + ColumnFragment(cfg, c), prev.1 || c.dataType != Unknown)
  }

  /** A comma is due exactly when some column so far was not UNKNOWN. */
  lemma {:induction false} ColumnListFlag(cfg: Config, cols: seq<ColumnSpec>)
    ensures ColumnList(cfg, cols).1 <==> exists i | 0 <= i < |cols| :: cols[i].dataType != Unknown
  {
    if |cols| > 0 {
      var init := cols[..|cols| - 1];
      ColumnListFlag(cfg, init);
      if ColumnList(cfg, init).1 {
        var i :| 0 <= i < |init| && init[i].dataType != Unknown;
        assert cols[i] == init[i];
      }
      if exists i | 0 <= i < |cols| :: cols[i].dataType != Unknown {
        var i :| 0 <= i < |cols| && cols[i].dataType != Unknown;
        if i < |init| {
          assert init[i] == cols[i];
        }
      }
    }
  }

  /** The names a list of columns renders as. */
  function Names(cfg: Config, cols: seq<string>): (r: seq<string>)
    ensures |r| == |cols|
    ensures forall i | 0 <= i < |cols| :: r[i] == cfg.render.columnName(cols[i])
  {
    seq(|cols|, i requires 0 <= i < |cols| => cfg.render.columnName(cols[i]))
  }

  function PrimaryKeyClause(cfg: Config, t: Table): string
  {
    match t.primaryKey
    case None => ""
    case Some(pk) => ", PRIMARY KEY (" + Join(Names(cfg, pk.columns), ", ") + ")"
  }

  /** The PRIMARY KEY clause is present exactly when the table has a primary
      key; it then opens with ", PRIMARY KEY (" and closes the key's
      parenthesis. */
  lemma PrimaryKeyClauseShape(cfg: Config, t: Table)
    ensures PrimaryKeyClause(cfg, t) == "" <==> t.primaryKey.None?
    ensures t.primaryKey.Some? ==>
              && StartsWith(PrimaryKeyClause(cfg, t), ", PRIMARY KEY (")
              && PrimaryKeyClause(cfg, t)[|PrimaryKeyClause(cfg, t)| - 1] == ')'
  {
    if t.primaryKey.Some? {
      var c := PrimaryKeyClause(cfg, t);
      assert c[..15] == ", PRIMARY KEY (";
    }
  }

  function CommentClause(t: Table): string
  {
    if t.comment == "" then "" else " COMMENT = '" + t.comment + "'"
  }

  const TableBanner: string := "-- creating table "

  /** The CREATE TABLE statement, with its banner comment. */
  function TableStatement(cfg: Config, t: Table): string
  {
    TableBanner + t.name + " --\r\n" + "CREATE TABLE " + cfg.render.tableName(t.name) + " ("
    + ColumnList(cfg, t.columns).0 + PrimaryKeyClause(cfg, t) + ")" + CommentClause(t)
  }

  /** An index that gets its own CREATE INDEX statement: neither the primary
      key nor of primary-key kind. */
  predicate IsSecondary(t: Table, idx: Index)
  {
    t.primaryKey != Some(idx) && idx.kind != PrimaryKey
  }

  function IndexStatement(cfg: Config, t: Table, idx: Index): string
  {
    (if idx.kind == Unique then "CREATE UNIQUE INDEX " else "CREATE INDEX ")
    + cfg.render.elementName(idx.name) + " ON " + cfg.render.tableName(t.name)
    + " (" + Join(Names(cfg, idx.columns), ", ") + ")"
  }

  /** The index statements of a table, in index order. */
  function IndexStatements(cfg: Config, t: Table, idxs: seq<Index>): seq<string>
  {
    if |idxs| == 0 then []
    else
      var idx := idxs[|idxs| - 1];
      IndexStatements(cfg, t, idxs[..|idxs| - 1])
      + (if IsSecondary(t, idx) then [IndexStatement(cfg, t, idx)] else [])
  }

  lemma IndexStatementsSnoc(cfg: Config, t: Table, idxs: seq<Index>, i: int)
    requires 0 <= i < |idxs|
    ensures IndexStatements(cfg, t, idxs[..i + 1])
         == IndexStatements(cfg, t, idxs[..i]) + (if IsSecondary(t, idxs[i]) then [IndexStatement(cfg, t, idxs[i])] else [])
  {
    assert idxs[..i + 1][..i] == idxs[..i];
  }

  /** Everything createTable appends. */
  function TableStmts(cfg: Config, t: Table): seq<string>
  {
    [TableStatement(cfg, t)] + IndexStatements(cfg, t, t.indexes)
  }

  /** The positions of the secondary indexes. */
  function SecondaryPositions(t: Table, idxs: seq<Index>): set<int>
  {
    set k | 0 <= k < |idxs| && IsSecondary(t, idxs[k])
  }

  lemma {:induction false} IndexStatementsCount(cfg: Config, t: Table, idxs: seq<Index>)
    ensures |IndexStatements(cfg, t, idxs)| == |SecondaryPositions(t, idxs)|
  {
    if |idxs| == 0 {
      assert SecondaryPositions(t, idxs) == {};
    } else {
      var n := |idxs| - 1;
      var init := idxs[..n];
      IndexStatementsCount(cfg, t, init);
      var s0 := SecondaryPositions(t, init);
      assert n !in s0;
      if IsSecondary(t, idxs[n]) {
        assert SecondaryPositions(t, idxs) == s0 + {n};
      } else {
        assert SecondaryPositions(t, idxs) == s0;
      }
    }
  }

  /** createTable appends one statement for the table and one for each
      secondary index. */
  lemma TableStmtsCount(cfg: Config, t: Table)
    ensures |TableStmts(cfg, t)| == 1 + |SecondaryPositions(t, t.indexes)|
  {
    IndexStatementsCount(cfg, t, t.indexes);
  }

  /** Every index statement names the index kind it was made for: UNIQUE
      indexes use CREATE UNIQUE INDEX, the others CREATE INDEX. */
  lemma IndexStatementKind(cfg: Config, t: Table, idx: Index)
    ensures StartsWith(IndexStatement(cfg, t, idx), "CREATE UNIQUE INDEX ") <==> idx.kind == Unique
    ensures idx.kind != Unique ==> StartsWith(IndexStatement(cfg, t, idx), "CREATE INDEX ")
  {
    var s := IndexStatement(cfg, t, idx);
    if idx.kind == Unique {
      assert s[..20] == "CREATE UNIQUE INDEX ";
    } else {
      assert s[..13] == "CREATE INDEX ";
      StartsWithAt(s, "CREATE INDEX ", 7);
      if StartsWith(s, "CREATE UNIQUE INDEX ") {
        StartsWithAt(s, "CREATE UNIQUE INDEX ", 7);
      }
    }
  }

  /** Every index statement of a table is a secondary index's statement,
      and every secondary index has its statement. */
  lemma {:induction false} IndexStatementsExact(cfg: Config, t: Table, idxs: seq<Index>)
    ensures forall s | s in IndexStatements(cfg, t, idxs) ::
              exists k | 0 <= k < |idxs| :: IsSecondary(t, idxs[k]) && s == IndexStatement(cfg, t, idxs[k])
    ensures forall k | 0 <= k < |idxs| && IsSecondary(t, idxs[k]) ::
              IndexStatement(cfg, t, idxs[k]) in IndexStatements(cfg, t, idxs)
  {
    if |idxs| > 0 {
      var n := |idxs| - 1;
      var init := idxs[..n];
      IndexStatementsExact(cfg, t, init);
      forall s | s in IndexStatements(cfg, t, idxs)
        ensures exists k | 0 <= k < |idxs| :: IsSecondary(t, idxs[k]) && s == IndexStatement(cfg, t, idxs[k])
      {
        if s in IndexStatements(cfg, t, init) {
          var k :| 0 <= k < |init| && IsSecondary(t, init[k]) && s == IndexStatement(cfg, t, init[k]);
          assert idxs[k] == init[k];
        } else {
          assert IsSecondary(t, idxs[n]) && s == IndexStatement(cfg, t, idxs[n]);
        }
      }
      forall k | 0 <= k < |idxs| && IsSecondary(t, idxs[k])
        ensures IndexStatement(cfg, t, idxs[k]) in IndexStatements(cfg, t, idxs)
      {
        if k < n {
          assert idxs[k] == init[k];
        }
      }
    }
  }

  // ---------------------------------------------------------------------
  // Relations, views, columns, DROP

  function SourceColumns(refs: seq<Reference>): seq<string>
  {
    seq(|refs|, i requires 0 <= i < |refs| => refs[i].source.column)
  }

  function TargetColumns(refs: seq<Reference>): seq<string>
  {
    seq(|refs|, i requires 0 <= i < |refs| => refs[i].target.column)
  }

  const RelationBanner: string := "-- creating foreign key constraint "

  /** The foreign-key statement; source and target tables are those of the
      first reference. */
  function RelationStatement(cfg: Config, r: Relation): string
  {
    var refs := r.references;
    RelationBanner + r.name + " --\r\n"
    + "ALTER TABLE " + cfg.render.tableName(refs[0].source.table)
    + " ADD CONSTRAINT " + cfg.render.elementName(r.name)
    + " FOREIGN KEY (" + Join(Names(cfg, SourceColumns(refs)), ", ")
    + ") REFERENCES " + cfg.render.tableName(refs[0].target.table)
    + " (" + Join(Names(cfg, TargetColumns(refs)), ", ") + ")"
  }

  /** CREATE VIEW over the view's command with its ORDER BY removed. */
  function ViewStatement(cfg: Config, v: View, cmd: Command): string
  {
    "CREATE VIEW " + cfg.render.tableName(v.name) + " (" + Join(Names(cfg, v.columns), ", ")
    + ")\r\nAS\r\n" + cfg.render.commandSql(cmd.(orderBy := []))
  }

  /** createView: NotImplemented when the view has no command. */
  function ViewEmitted(cfg: Config, v: View): (e: Emitted)
    ensures e.outcome.Ok? <==> v.command.Some?
    ensures e.outcome.Ok? ==> |e.stmts| == 1 && StartsWith(e.stmts[0], "CREATE VIEW ")
    ensures e.outcome.Fail? ==> e == Emitted([], Fail(NotImplemented(v.name + ".createCommand")))
  {
    match v.command
    case None => Emitted([], Fail(NotImplemented(v.name + ".createCommand")))
    case Some(cmd) =>
      var stmt := ViewStatement(cfg, v, cmd);
      assert stmt[..12] == "CREATE VIEW ";
      Emitted([stmt], Ok)
  }

  /** The ORDER BY of a view's command never reaches the DDL. */
  lemma ViewIgnoresOrderBy(cfg: Config, v: View, select: string, order1: seq<string>, order2: seq<string>)
    ensures ViewEmitted(cfg, v.(command := Some(Command(select, order1))))
         == ViewEmitted(cfg, v.(command := Some(Command(select, order2))))
  {
  }

  function CmdName(t: CmdType): string
  {
    match t
    case Create => "CREATE"
    case Drop => "DROP"
    case Alter => "ALTER"
  }

  /** alterTable: one ALTER TABLE statement; appendColumnDesc's result is
      not looked at. */
  function AlterStatement(cfg: Config, c: ColumnSpec, owner: string, t: CmdType): string
  {
    var head := "ALTER TABLE " + cfg.render.tableName(owner);
    match t
    case Create => head + " ADD " + ColumnFragment(cfg, c)
    case Alter => head + " ALTER " + ColumnFragment(cfg, c)
    case Drop => head + " DROP COLUMN " + c.name
  }

  /** dropObject: InvalidArg for an empty (or null) name, otherwise exactly
      one DROP statement. */
  function DropEmitted(cfg: Config, name: string, objType: string): (e: Emitted)
    ensures name == "" <==> e.outcome.Fail?
    ensures name == "" ==> e == Emitted([], Fail(InvalidArgument("name")))
    ensures name != "" ==> e.stmts == ["DROP " + objType + " " + cfg.render.elementName(name)]
  {
    if name == "" then Emitted([], Fail(InvalidArgument("name")))
    else Emitted(["DROP " + objType + " " + cfg.render.elementName(name)], Ok)
  }

  // ---------------------------------------------------------------------
  // CREATE of a whole database

  function TablesStmts(cfg: Config, ts: seq<Table>): seq<string>
  {
    if |ts| == 0 then [] else TablesStmts(cfg, ts[..|ts| - 1]) + TableStmts(cfg, ts[|ts| - 1])
  }

  lemma TablesStmtsSnoc(cfg: Config, ts: seq<Table>, i: int)
    requires 0 <= i < |ts|
    ensures TablesStmts(cfg, ts[..i + 1]) == TablesStmts(cfg, ts[..i]) + TableStmts(cfg, ts[i])
  {
    assert ts[..i + 1][..i] == ts[..i];
  }

  function RelationsStmts(cfg: Config, rs: seq<Relation>): seq<string>
  {
    if |rs| == 0 then [] else RelationsStmts(cfg, rs[..|rs| - 1]) + [RelationStatement(cfg, rs[|rs| - 1])]
  }

  lemma RelationsStmtsSnoc(cfg: Config, rs: seq<Relation>, i: int)
    requires 0 <= i < |rs|
    ensures RelationsStmts(cfg, rs[..i + 1]) == RelationsStmts(cfg, rs[..i]) + [RelationStatement(cfg, rs[i])]
  {
    assert rs[..i + 1][..i] == rs[..i];
  }

  /** Run a, then b if a ended normally. */
  function Then(a: Emitted, b: Emitted): Emitted
  {
    if a.outcome.Fail? then a else Emitted(a.stmts + b.stmts, b.outcome)
  }

  /** The views in order, up to the first one without a command. */
  function ViewsEmitted(cfg: Config, vs: seq<View>): Emitted
  {
    if |vs| == 0 then Emitted([], Ok)
    else Then(ViewsEmitted(cfg, vs[..|vs| - 1]), ViewEmitted(cfg, vs[|vs| - 1]))
  }

  lemma ViewsEmittedSnoc(cfg: Config, vs: seq<View>, i: int)
    requires 0 <= i < |vs|
    ensures ViewsEmitted(cfg, vs[..i + 1]) == Then(ViewsEmitted(cfg, vs[..i]), ViewEmitted(cfg, vs[i]))
  {
    assert vs[..i + 1][..i] == vs[..i];
  }

  /** createDatabase: all tables, then all relations, then the views. */
  function DatabaseEmitted(cfg: Config, db: Database): Emitted
  {
    var v := ViewsEmitted(cfg, db.views);
    Emitted(TablesStmts(cfg, db.tables) + RelationsStmts(cfg, db.relations) + v.stmts, v.outcome)
  }

  predicate IsTableStmt(s: string)
  {
    StartsWith(s, TableBanner) || StartsWith(s, "CREATE INDEX ") || StartsWith(s, "CREATE UNIQUE INDEX ")
  }

  predicate IsRelationStmt(s: string)
  {
    StartsWith(s, RelationBanner)
  }

  predicate IsViewStmt(s: string)
  {
    StartsWith(s, "CREATE VIEW ")
  }

  /** The three kinds of statement are told apart by their first words. */
  lemma StatementKindsDisjoint(s: string)
    ensures !(IsTableStmt(s) && IsRelationStmt(s))
    ensures !(IsTableStmt(s) && IsViewStmt(s))
    ensures !(IsRelationStmt(s) && IsViewStmt(s))
  {
    if StartsWith(s, TableBanner) {
      StartsWithAt(s, TableBanner, 12);
    }
    if StartsWith(s, "CREATE INDEX ") {
      StartsWithAt(s, "CREATE INDEX ", 0);
      StartsWithAt(s, "CREATE INDEX ", 7);
    }
    if StartsWith(s, "CREATE UNIQUE INDEX ") {
      StartsWithAt(s, "CREATE UNIQUE INDEX ", 0);
      StartsWithAt(s, "CREATE UNIQUE INDEX ", 7);
    }
    if IsRelationStmt(s) {
      StartsWithAt(s, RelationBanner, 0);
      StartsWithAt(s, RelationBanner, 12);
    }
    if IsViewStmt(s) {
      StartsWithAt(s, "CREATE VIEW ", 0);
      StartsWithAt(s, "CREATE VIEW ", 7);
    }
  }

  /** Every statement of ss is of kind P. */
  predicate All(ss: seq<string>, P: string -> bool)
  {
    forall i | 0 <= i < |ss| :: P(ss[i])
  }

  lemma AllConcat(a: seq<string>, b: seq<string>, P: string -> bool)
    requires All(a, P) && All(b, P)
    ensures All(a + b, P)
  {
    forall i | 0 <= i < |a + b| ensures P((a + b)[i]) {
      if i >= |a| {
        assert (a + b)[i] == b[i - |a|];
      }
    }
  }

  /** createTable emits only table and index statements. */
  lemma TableStmtsKind(cfg: Config, t: Table)
    ensures All(TableStmts(cfg, t), IsTableStmt)
  {
    var b := TableStmts(cfg, t);
    assert TableStatement(cfg, t)[..|TableBanner|] == TableBanner;
    IndexStatementsExact(cfg, t, t.indexes);
    forall i | 0 <= i < |b| ensures IsTableStmt(b[i]) {
      if i > 0 {
        var s := b[i];
        assert s in IndexStatements(cfg, t, t.indexes);
        var k :| 0 <= k < |t.indexes| && IsSecondary(t, t.indexes[k]) && s == IndexStatement(cfg, t, t.indexes[k]);
        IndexStatementKind(cfg, t, t.indexes[k]);
      }
    }
  }

  lemma {:induction false} TablesStmtsKind(cfg: Config, ts: seq<Table>)
    ensures All(TablesStmts(cfg, ts), IsTableStmt)
  {
    if |ts| > 0 {
      TablesStmtsKind(cfg, ts[..|ts| - 1]);
      TableStmtsKind(cfg, ts[|ts| - 1]);
      AllConcat(TablesStmts(cfg, ts[..|ts| - 1]), TableStmts(cfg, ts[|ts| - 1]), IsTableStmt);
    }
  }

  lemma {:induction false} RelationsStmtsKind(cfg: Config, rs: seq<Relation>)
    ensures |RelationsStmts(cfg, rs)| == |rs|
    ensures All(RelationsStmts(cfg, rs), IsRelationStmt)
  {
    if |rs| > 0 {
      RelationsStmtsKind(cfg, rs[..|rs| - 1]);
      assert RelationStatement(cfg, rs[|rs| - 1])[..|RelationBanner|] == RelationBanner;
      AllConcat(RelationsStmts(cfg, rs[..|rs| - 1]), [RelationStatement(cfg, rs[|rs| - 1])], IsRelationStmt);
    }
  }

  lemma {:induction false} ViewsEmittedKind(cfg: Config, vs: seq<View>)
    ensures |ViewsEmitted(cfg, vs).stmts| <= |vs|
    ensures All(ViewsEmitted(cfg, vs).stmts, IsViewStmt)
    ensures (forall i | 0 <= i < |vs| :: vs[i].command.Some?) <==> ViewsEmitted(cfg, vs).outcome.Ok?
    ensures ViewsEmitted(cfg, vs).outcome.Ok? ==> |ViewsEmitted(cfg, vs).stmts| == |vs|
  {
    if |vs| > 0 {
      var init := vs[..|vs| - 1];
      ViewsEmittedKind(cfg, init);
      var prev := ViewsEmitted(cfg, init);
      if prev.outcome.Ok? {
        AllConcat(prev.stmts, ViewEmitted(cfg, vs[|vs| - 1]).stmts, IsViewStmt);
      } else {
        var i :| 0 <= i < |init| && init[i].command.None?;
        assert vs[i] == init[i];
      }
    }
  }

  /** Once the views so far include one without a command, the views after
    it change nothing. */
  lemma {:induction false} ViewsEmittedStops(cfg: Config, vs: seq<View>, k: nat)
    requires k <= |vs|
    requires ViewsEmitted(cfg, vs[..k]).outcome.Fail?
    ensures ViewsEmitted(cfg, vs) == ViewsEmitted(cfg, vs[..k])
    decreases |vs| - k
  {
    if k < |vs| {
      assert vs[..k + 1][..k] == vs[..k];
      ViewsEmittedStops(cfg, vs, k + 1);
    } else {
      assert vs[..k] == vs;
    }
  }

  /** The first tables statements are table statements, the next relations
      ones relation statements, and the rest view statements. */
  ghost predicate Phases(stmts: seq<string>, tables: nat, relations: nat)
  {
    && tables + relations <= |stmts|
    && All(stmts[..tables], IsTableStmt)
    && All(stmts[tables..tables + relations], IsRelationStmt)
    && All(stmts[tables + relations..], IsViewStmt)
  }

  /** createDatabase emits all table statements, then exactly one
      statement per relation, then view statements; it ends normally
      exactly when every view has a command, and then every view has its
      statement. */
  lemma DatabaseOrder(cfg: Config, db: Database)
    ensures Phases(DatabaseEmitted(cfg, db).stmts, |TablesStmts(cfg, db.tables)|, |db.relations|)
    ensures DatabaseEmitted(cfg, db).outcome.Ok? <==> forall i | 0 <= i < |db.views| :: db.views[i].command.Some?
    ensures DatabaseEmitted(cfg, db).outcome.Ok? ==>
              |DatabaseEmitted(cfg, db).stmts| == |TablesStmts(cfg, db.tables)| + |db.relations| + |db.views|
  {
    var t := TablesStmts(cfg, db.tables);
    var r := RelationsStmts(cfg, db.relations);
    var v := ViewsEmitted(cfg, db.views).stmts;
    TablesStmtsKind(cfg, db.tables);
    RelationsStmtsKind(cfg, db.relations);
    ViewsEmittedKind(cfg, db.views);
    var all := t + r + v;
    assert all[..|t|] == t;
    assert all[|t|..|t| + |r|] == r;
    assert all[|t| + |r|..] == v;
  }

  // ---------------------------------------------------------------------
  // The dispatcher

  function NotImplementedFor(className: string, t: CmdType): Emitted
  {
    Emitted([], Fail(NotImplemented("getDDLScript." + className + ("." + CmdName(t)))))
  }

  /** getDDLScript on an object attached to the driver self, with the
      switch cases for views and relations falling through as in the source. */
  function DDLScript(cfg: Config, self: object, t: CmdType, dbo: Option<DbObject>): (e: Emitted)
    ensures dbo.None? || dbo.value.driver != self ==> e == Emitted([], Fail(InvalidArgument("dbo")))
    ensures dbo.Some? && dbo.value.kind.OtherObj? ==> e == Emitted([], Fail(InvalidArgument("dbo")))
    ensures dbo.Some? && (dbo.value.kind.ViewObj? || dbo.value.kind.RelationObj?) ==> e.outcome.Fail?
    ensures dbo.Some? && t == Alter && !dbo.value.kind.ColumnObj? ==> e.stmts == [] && e.outcome.Fail?
    ensures dbo.Some? && dbo.value.driver == self && t == Alter
            && !dbo.value.kind.ColumnObj? && !dbo.value.kind.OtherObj? ==>
              e == NotImplementedFor(dbo.value.className, Alter)
    ensures dbo.Some? && dbo.value.driver == self && dbo.value.kind.ViewObj?
            && dbo.value.kind.view.command.None? && t == Create ==>
              e == Emitted([], Fail(NotImplemented(dbo.value.kind.view.name + ".createCommand")))
    ensures dbo.Some? && dbo.value.driver == self && dbo.value.kind.ColumnObj? ==>
              |e.stmts| == 1 && e.outcome == Ok
  {
    if dbo.None? || dbo.value.driver != self then Emitted([], Fail(InvalidArgument("dbo")))
    else match dbo.value.kind
      case DatabaseObj(db) =>
        (match t
         case Create => DatabaseEmitted(cfg, db)
         case Drop => DropEmitted(cfg, db.schema, "DATABASE")
         case Alter => NotImplementedFor(dbo.value.className, t))
      case TableObj(tb) =>
        (match t
         case Create => Emitted(TableStmts(cfg, tb), Ok)
         case Drop => DropEmitted(cfg, tb.name, "TABLE")
         case Alter => NotImplementedFor(dbo.value.className, t))
      case ViewObj(v) =>
        (match t
         case Create => Then(ViewEmitted(cfg, v), Then(DropEmitted(cfg, v.name, "VIEW"), NotImplementedFor(dbo.value.className, t)))
         case Drop => Then(DropEmitted(cfg, v.name, "VIEW"), NotImplementedFor(dbo.value.className, t))
         case Alter => NotImplementedFor(dbo.value.className, t))
      case RelationObj(r) =>
        (match t
         case Create => Then(Emitted([RelationStatement(cfg, r)], Ok),
                             Then(DropEmitted(cfg, r.name, "CONSTRAINT"), NotImplementedFor(dbo.value.className, t)))
         case Drop => Then(DropEmitted(cfg, r.name, "CONSTRAINT"), NotImplementedFor(dbo.value.className, t))
         case Alter => NotImplementedFor(dbo.value.className, t))
      case ColumnObj(c, owner) => Emitted([AlterStatement(cfg, c, owner, t)], Ok)
      case OtherObj => Emitted([], Fail(InvalidArgument("dbo")))
  }

  /** Creating a view with a command and a name appends the CREATE VIEW
      statement and then a DROP VIEW of the same view, and then fails with
      NotImplemented: the missing breaks of the source's switch. */
  lemma ViewCreateFallsThrough(cfg: Config, self: object, v: View, cls: string)
    requires v.command.Some? && v.name != ""
    ensures DDLScript(cfg, self, Create, Some(DbObject(ViewObj(v), cls, self)))
         == Emitted([ViewStatement(cfg, v, v.command.value), "DROP VIEW " + cfg.render.elementName(v.name)],
                    Fail(NotImplemented("getDDLScript." + cls + ".CREATE")))
  {
    var create := ViewStatement(cfg, v, v.command.value);
    var drop := "DROP VIEW " + cfg.render.elementName(v.name);
    var failure := NotImplementedFor(cls, Create);
    assert "." + CmdName(Create) == ".CREATE";
    assert "DROP " + "VIEW" + " " == "DROP VIEW ";
    assert Then(DropEmitted(cfg, v.name, "VIEW"), failure) == Emitted([drop], failure.outcome);
    assert [create] + ([drop] + []) == [create, drop];
  }

  /** Creating a relation appends the foreign-key statement and a DROP
      CONSTRAINT of it, then fails with NotImplemented. */
  lemma RelationCreateFallsThrough(cfg: Config, self: object, r: Relation, cls: string)
    requires r.name != ""
    ensures DDLScript(cfg, self, Create, Some(DbObject(RelationObj(r), cls, self)))
         == Emitted([RelationStatement(cfg, r), "DROP CONSTRAINT " + cfg.render.elementName(r.name)],
                    Fail(NotImplemented("getDDLScript." + cls + ".CREATE")))
  {
    var create := RelationStatement(cfg, r);
    var drop := "DROP CONSTRAINT " + cfg.render.elementName(r.name);
    var failure := NotImplementedFor(cls, Create);
    assert "." + CmdName(Create) == ".CREATE";
    assert "DROP " + "CONSTRAINT" + " " == "DROP CONSTRAINT ";
    assert [create] + ([drop] + []) == [create, drop];
  }

  /** Dropping a named view or relation appends the DROP statement and
      still fails with NotImplemented; with no name it fails with
      InvalidArg before appending anything. */
  lemma DropFallsThrough(cfg: Config, self: object, kind: ObjectKind, cls: string)
    requires kind.ViewObj? || kind.RelationObj?
    ensures var name := if kind.ViewObj? then kind.view.name else kind.relation.name;
            var e := DDLScript(cfg, self, Drop, Some(DbObject(kind, cls, self)));
            && (name != "" ==> e == Emitted(["DROP " + (if kind.ViewObj? then "VIEW" else "CONSTRAINT") + " "
                                              + cfg.render.elementName(name)],
                                             Fail(NotImplemented("getDDLScript." + cls + ".DROP"))))
            && (name == "" ==> e == Emitted([], Fail(InvalidArgument("name"))))
  {
    assert "." + CmdName(Drop) == ".DROP";
  }

  /** ALTER of a view or a relation appends nothing and fails with
      NotImplemented naming the class and the command. */
  lemma ViewOrRelationAlter(cfg: Config, self: object, kind: ObjectKind, cls: string)
    requires kind.ViewObj? || kind.RelationObj?
    ensures DDLScript(cfg, self, Alter, Some(DbObject(kind, cls, self)))
         == Emitted([], Fail(NotImplemented("getDDLScript." + cls + ".ALTER")))
  {
    assert "." + CmdName(Alter) == ".ALTER";
  }

  /** CREATE of a view without a command fails in createView, before
      anything is appended and before the switch falls through. */
  lemma ViewCreateWithoutCommand(cfg: Config, self: object, v: View, cls: string)
    requires v.command.None?
    ensures DDLScript(cfg, self, Create, Some(DbObject(ViewObj(v), cls, self)))
         == Emitted([], Fail(NotImplemented(v.name + ".createCommand")))
  {
  }

  /** CREATE of an unnamed view with a command appends CREATE VIEW, then the
      fall-through into dropObject fails with InvalidArg "name". */
  lemma UnnamedViewCreate(cfg: Config, self: object, v: View, cls: string)
    requires v.command.Some? && v.name == ""
    ensures DDLScript(cfg, self, Create, Some(DbObject(ViewObj(v), cls, self)))
         == Emitted([ViewStatement(cfg, v, v.command.value)], Fail(InvalidArgument("name")))
  {
  }

  /** CREATE of an unnamed relation appends its foreign-key statement, then
      the fall-through into dropObject fails with InvalidArg "name". */
  lemma UnnamedRelationCreate(cfg: Config, self: object, r: Relation, cls: string)
    requires r.name == ""
    ensures DDLScript(cfg, self, Create, Some(DbObject(RelationObj(r), cls, self)))
         == Emitted([RelationStatement(cfg, r)], Fail(InvalidArgument("name")))
  {
  }

  /** CREATE and DROP of a table or a database behave as their builders;
      ALTER of either fails with NotImplemented naming the class. */
  lemma TableAndDatabaseRequests(cfg: Config, self: object, tb: Table, db: Database, cls: string)
    ensures DDLScript(cfg, self, Create, Some(DbObject(TableObj(tb), cls, self))) == Emitted(TableStmts(cfg, tb), Ok)
    ensures DDLScript(cfg, self, Drop, Some(DbObject(TableObj(tb), cls, self))) == DropEmitted(cfg, tb.name, "TABLE")
    ensures DDLScript(cfg, self, Create, Some(DbObject(DatabaseObj(db), cls, self))) == DatabaseEmitted(cfg, db)
    ensures DDLScript(cfg, self, Drop, Some(DbObject(DatabaseObj(db), cls, self))) == DropEmitted(cfg, db.schema, "DATABASE")
    ensures DDLScript(cfg, self, Alter, Some(DbObject(TableObj(tb), cls, self)))
         == Emitted([], Fail(NotImplemented("getDDLScript." + cls + ".ALTER")))
    ensures DDLScript(cfg, self, Alter, Some(DbObject(DatabaseObj(db), cls, self)))
         == Emitted([], Fail(NotImplemented("getDDLScript." + cls + ".ALTER")))
  {
    assert "." + CmdName(Alter) == ".ALTER";
  }

  /** A column request appends the one ALTER TABLE statement for that
      command, whatever the column's type. */
  lemma ColumnRequest(cfg: Config, self: object, c: ColumnSpec, owner: string, cls: string, t: CmdType)
    ensures DDLScript(cfg, self, t, Some(DbObject(ColumnObj(c, owner), cls, self)))
         == Emitted([AlterStatement(cfg, c, owner, t)], Ok)
    ensures StartsWith(AlterStatement(cfg, c, owner, t), "ALTER TABLE ")
  {
    assert AlterStatement(cfg, c, owner, t)[..12] == "ALTER TABLE ";
  }

  /** An UNKNOWN column leaves its separator, its name and a space in the
      column list, and the next column is still preceded by the separator
      chosen before it. */
  lemma UnknownColumnLeaks(cfg: Config, cols: seq<ColumnSpec>, c: ColumnSpec)
    requires c.dataType == Unknown
    ensures var prev := ColumnList(cfg, cols);
            ColumnList(cfg, cols + [c]) == (prev.0 + Separator(prev.1) + cfg.render.columnName(c.name) + " ", prev.1)
  {
    assert (cols + [c])[..|cols|] == cols;
    var prev := ColumnList(cfg, cols);
    var head := prev.0 + Separator(prev.1);
    var name := cfg.render.columnName(c.name);
    assert ColumnFragment(cfg, c) == name + " ";
    assert head + (name + " ") == head + name + " ";
  }

  /** A column that is not UNKNOWN adds its separator and its full
      description, and makes the next separator a comma. */
  lemma KnownColumnAppends(cfg: Config, cols: seq<ColumnSpec>, c: ColumnSpec)
    requires c.dataType != Unknown
    ensures var prev := ColumnList(cfg, cols);
            ColumnList(cfg, cols + [c]) == (prev.0 + Separator(prev.1) + ColumnFragment(cfg, c), true)
  {
    assert (cols + [c])[..|cols|] == cols;
  }
}
