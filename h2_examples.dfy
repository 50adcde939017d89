/** Concrete DDL produced for small schemas, with names rendered as they
    are written (no quoting, no schema prefix). */
module H2Examples {
  import opened Wrappers
  import opened DataTypes
  import opened Schema
  import opened H2Ddl

  function Plain(): Render
  {
    Render(s => s, s => s, s => s, (v, t) => "0", (cmd: Command) => cmd.select)
  }

  function PlainConfig(useSequenceTable: bool): Config
  {
    Config(useSequenceTable, false, Plain())
  }

  const Id: ColumnSpec := ColumnSpec("id", AutoInc, 0.0, AutoGenerated, NullValue)
  const UserName: ColumnSpec := ColumnSpec("name", Text, 50.0, NotNull, NullValue)
  const PkUsers: Index := Index("pk_users", PrimaryKey, ["id"])
  const IxName: Index := Index("ix_name", Unique, ["name"])
  const Users: Table := Table("users", [Id, UserName], Some(PkUsers), [PkUsers, IxName], "")

  /** Without a sequence table the key is an H2 auto-increment column. */
  lemma IdFragment()
    ensures ColumnFragment(PlainConfig(false), Id) == "id " + "INT AUTO_INCREMENT" + " NOT NULL"
  {
    var cfg := PlainConfig(false);
    assert cfg.render.columnName("id") == "id";
    assert TypeSql(cfg, Id) == "INT AUTO_INCREMENT";
    assert DefaultClause(cfg, Id) == "";
    assert NotNullClause(Id) == " NOT NULL";
    assert "id " + "INT AUTO_INCREMENT" + "" == "id " + "INT AUTO_INCREMENT";
  }

  /** A required text column of size 50. */
  lemma UserNameFragment()
    ensures ColumnFragment(PlainConfig(false), UserName) == "name " + "VARCHAR(50)" + " NOT NULL"
  {
    var cfg := PlainConfig(false);
    assert cfg.render.columnName("name") == "name";
    assert CharLength(50.0, 100) == 50;
    assert Strings.IntToString(50) == "50";
    assert TypeSql(cfg, UserName) == "VARCHAR(" + "50" + ")";
    assert DefaultClause(cfg, UserName) == "";
    assert NotNullClause(UserName) == " NOT NULL";
    assert "name " + "VARCHAR(50)" + "" == "name " + "VARCHAR(50)";
  }

  /** Of the two indexes of users only the unique one gets a statement. */
  lemma UsersIndexes()
    ensures IndexStatements(PlainConfig(false), Users, Users.indexes)
         == ["CREATE UNIQUE INDEX ix_name ON users (name)"]
  {
    var cfg := PlainConfig(false);
    assert [PkUsers, IxName][..1] == [PkUsers];
    assert [PkUsers][..0] == [];
    assert IndexStatements(cfg, Users, []) == [];
    assert !IsSecondary(Users, PkUsers);
    assert IndexStatements(cfg, Users, [PkUsers]) == [];
    assert IsSecondary(Users, IxName);
    assert Names(cfg, ["name"]) == ["name"];
    assert Strings.Join(["name"], ", ") == "name";
    assert cfg.render.elementName("ix_name") == "ix_name";
    assert cfg.render.tableName("users") == "users";
    assert IndexStatement(cfg, Users, IxName)
        == "CREATE UNIQUE INDEX " + "ix_name" + " ON " + "users" + " (" + "name" + ")";
    assert "CREATE UNIQUE INDEX " + "ix_name" + " ON " + "users" + " (" + "name" + ")"
        == "CREATE UNIQUE INDEX ix_name ON users (name)";
    assert IndexStatements(cfg, Users, [PkUsers, IxName]) == [] + [IndexStatement(cfg, Users, IxName)];
  }

  /** Regrouping the parts of a two-column CREATE TABLE statement with a
      primary key and no comment. */
  lemma TwoColumnTableText(h: string, s1: string, a1: string, b1: string, c1: string,
                           s2: string, a2: string, b2: string, c2: string,
                           p1: string, p2: string, p3: string)
    ensures h + ("" + s1 + (a1 + b1 + c1) + s2 + (a2 + b2 + c2)) + (p1 + p2 + p3) + ")" + ""
         == h + s1 + a1 + b1 + c1 + s2 + a2 + b2 + c2 + p1 + p2 + p3 + ")"
  {
    var f1, f2, p := a1 + b1 + c1, a2 + b2 + c2, p1 + p2 + p3;
    assert "" + s1 == s1;
    var cols := s1 + f1 + s2 + f2;
    Strings.ConcatAssoc(h, s1 + f1 + s2, f2);
    Strings.ConcatAssoc(h, s1 + f1, s2);
    Strings.ConcatAssoc(h, s1, f1);
    var x := h + s1;
    Strings.ConcatAssoc(x, a1 + b1, c1);
    Strings.ConcatAssoc(x, a1, b1);
    var y := x + a1 + b1 + c1 + s2;
    Strings.ConcatAssoc(y, a2 + b2, c2);
    Strings.ConcatAssoc(y, a2, b2);
    var z := y + a2 + b2 + c2;
    Strings.ConcatAssoc(z, p1 + p2, p3);
    Strings.ConcatAssoc(z, p1, p2);
    assert h + cols + p + ")" + "" == h + cols + p + ")";
  }

  /** The CREATE TABLE statement of users: the banner, both column
      descriptions, the primary key inside the parentheses, no comment. */
  lemma UsersCreateTable()
    ensures TableStatement(PlainConfig(false), Users)
         == TableBanner + "users" + " --\r\n" + "CREATE TABLE " + "users" + " ("
            + "\r\n   " + "id " + "INT AUTO_INCREMENT" + " NOT NULL"
            + ",\r\n   " + "name " + "VARCHAR(50)" + " NOT NULL"
            + ", PRIMARY KEY (" + "id" + ")" + ")"
  {
    var cfg := PlainConfig(false);
    IdFragment();
    UserNameFragment();
    assert [Id][..0] == [];
    assert [Id, UserName][..1] == [Id];
    assert ColumnList(cfg, []) == ("", false);
    assert ColumnList(cfg, [Id]).0 == "" + "\r\n   " + ColumnFragment(cfg, Id);
    assert ColumnList(cfg, [Id]).1;
    assert ColumnList(cfg, [Id, UserName]).0
        == ColumnList(cfg, [Id]).0 + ",\r\n   " + ColumnFragment(cfg, UserName);
    assert Names(cfg, ["id"]) == ["id"];
    assert Strings.Join(["id"], ", ") == "id";
    assert PrimaryKeyClause(cfg, Users) == ", PRIMARY KEY (" + "id" + ")";
    assert cfg.render.tableName("users") == "users";
    assert CommentClause(Users) == "";
    var h := TableBanner + "users" + " --\r\n" + "CREATE TABLE " + "users" + " (";
    assert TableStatement(cfg, Users)
        == h + ColumnList(cfg, Users.columns).0 + PrimaryKeyClause(cfg, Users) + ")" + "";
    TwoColumnTableText(h, "\r\n   ", "id ", "INT AUTO_INCREMENT", " NOT NULL",
                       ",\r\n   ", "name ", "VARCHAR(50)", " NOT NULL",
                       ", PRIMARY KEY (", "id", ")");
  }

  /** The users table: the primary key is declared inside CREATE TABLE and
      gets no statement of its own; the unique index follows it. */
  lemma UsersTable()
    ensures TableStmts(PlainConfig(false), Users)
         == [TableBanner + "users" + " --\r\n" + "CREATE TABLE " + "users" + " ("
             + "\r\n   " + "id " + "INT AUTO_INCREMENT" + " NOT NULL"
             + ",\r\n   " + "name " + "VARCHAR(50)" + " NOT NULL"
             + ", PRIMARY KEY (" + "id" + ")" + ")",
             "CREATE UNIQUE INDEX ix_name ON users (name)"]
  {
    UsersCreateTable();
    UsersIndexes();
  }

  /** With a sequence table the key column is a plain INT. */
  lemma UsersKeyWithSequenceTable()
    ensures ColumnFragment(PlainConfig(true), Id) == "id INT NOT NULL"
  {
  }

  /** Size 10.2 renders as DECIMAL(10,2). */
  lemma DecimalTenPointTwo()
    ensures TypeSql(PlainConfig(false), ColumnSpec("amount", Decimal, 10.2, Nullable, NullValue)) == "DECIMAL(10,2)"
  {
    DecimalOfTenths(PlainConfig(false), ColumnSpec("amount", Decimal, 10.2, Nullable, NullValue), 102);
    assert Strings.IntToString(10) == "10";
    assert Strings.IntToString(2) == "2";
  }

  /** The foreign key from orders.user_id to users.id, piece by piece: the
      banner names the relation, the statement the source table, the
      constraint and both column lists. */
  lemma OrdersReferenceUsers()
    ensures RelationStatement(PlainConfig(false),
              Relation("fk_orders_users", [Reference(ColumnRef("orders", "user_id"), ColumnRef("users", "id"))]))
         == RelationBanner + "fk_orders_users" + " --\r\n"
            + "ALTER TABLE " + "orders" + " ADD CONSTRAINT " + "fk_orders_users"
            + " FOREIGN KEY (" + "user_id" + ") REFERENCES " + "users" + " (" + "id" + ")"
  {
    var cfg := PlainConfig(false);
    var refs := [Reference(ColumnRef("orders", "user_id"), ColumnRef("users", "id"))];
    assert SourceColumns(refs) == ["user_id"];
    assert TargetColumns(refs) == ["id"];
    assert Names(cfg, ["user_id"]) == ["user_id"];
    assert Names(cfg, ["id"]) == ["id"];
    assert Strings.Join(["user_id"], ", ") == "user_id";
    assert Strings.Join(["id"], ", ") == "id";
    assert cfg.render.tableName("orders") == "orders";
    assert cfg.render.tableName("users") == "users";
    assert cfg.render.elementName("fk_orders_users") == "fk_orders_users";
  }

  /** An UNKNOWN column before an INTEGER one: its name stays in the SQL
      and the next column gets no comma. */
  lemma UnknownColumnInList()
    ensures ColumnList(PlainConfig(false),
              [ColumnSpec("x", Unknown, 0.0, Nullable, NullValue), ColumnSpec("id", Integer, 4.0, Nullable, NullValue)]).0
         == "\r\n   x \r\n   id INT"
  {
    var x := ColumnSpec("x", Unknown, 0.0, Nullable, NullValue);
    var cols := [x, ColumnSpec("id", Integer, 4.0, Nullable, NullValue)];
    assert cols[..1] == [x];
    var cfg := PlainConfig(false);
    assert cfg.render.columnName("x") == "x";
    assert ColumnFragment(cfg, x) == "x ";
    assert [x][..0] == [];
    assert ColumnList(cfg, []) == ("", false);
    assert ColumnList(cfg, [x]) == ("" + "\r\n   " + "x ", false);
    assert "" + "\r\n   " + "x " == "\r\n   x ";
  }

  /** ALTER TABLE … ADD of an UNKNOWN column is still emitted, with only
      the column name. */
  lemma AddUnknownColumn()
    ensures AlterStatement(PlainConfig(false), ColumnSpec("x", Unknown, 0.0, Nullable, NullValue), "t", Create)
         == "ALTER TABLE t ADD x "
  {
  }

  /** Dropping a table without a name fails and emits nothing. */
  lemma DropUnnamedTable(self: object)
    ensures DDLScript(PlainConfig(false), self, Drop,
                      Some(DbObject(TableObj(Users.(name := "")), "org.apache.empire.db.DBTable", self)))
         == Emitted([], Fail(InvalidArgument("name")))
  {
  }

  /** ALTER of a view is not implemented; the message names the class and
      the command. */
  lemma AlterView(self: object)
    ensures DDLScript(PlainConfig(false), self, Alter,
                      Some(DbObject(ViewObj(View("v", [], None)), "org.apache.empire.db.DBView", self)))
         == Emitted([], Fail(NotImplemented("getDDLScript.org.apache.empire.db.DBView.ALTER")))
  {
    assert "." + CmdName(Alter) == ".ALTER";
    assert "getDDLScript." + "org.apache.empire.db.DBView" + ".ALTER" == "getDDLScript.org.apache.empire.db.DBView.ALTER";
  }
}
