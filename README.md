# H2 DDL generation and table-column metadata of Apache Empire-db, in Dafny

This project models two parts of Empire-db.

**The H2 dialect driver `DBDatabaseDriverH2`.** It turns an in-memory schema into SQL DDL statements and appends them to a script, which is an append-only list of strings (`DBSQLScript.addStmt`). The model covers:

- the phrase and cast lookup tables;
- the driver's configuration: the database name, `useSequenceTable` and the sequence table name;
- the column description (`appendColumnDesc`);
- the statement builders (`createTable`, `createRelation`, `createView`, `alterTable`, `dropObject`, `createDatabase`);
- the dispatcher `getDDLScript`.

**The column metadata class `DBTableColumn`.** The model covers:

- the constructor's normalisation of type and mode;
- the guarded setters (`setSize`, `setDecimalScale`, `setRequired`, `setReadOnly`, `setSingleByteChars`);
- the mode and attribute queries;
- `validate` and `validateNumber`;
- `getRecordDefaultValue`;
- `getSequenceName`.

The model is written in two layers:

- **Specification functions** in `H2Ddl` state what each builder and request appends, and whether it ends normally or with an exception. The lemmas next to them state the properties of that output:
  - the type mapping;
  - when NOT NULL and DEFAULT appear;
  - how many statements `createTable` emits, and of which kinds;
  - the order of the phases of `createDatabase`;
  - the error cases of the dispatcher;
  - the fall-through of its view and relation cases.
- **The class `H2Driver.DBDatabaseDriverH2`** holds the driver's fields. Its methods build the statements imperatively:
  - the `StringBuilder` is a local string extended step by step;
  - the `addSeparator` loops are `for`/`while` loops with invariants;
  - every statement goes through `SqlScript.DBSQLScript.AddStmt`.

  Each method is proved to append exactly what its specification function says.

`TableColumn.DBTableColumn` is a class whose setters update `size`, `dataMode`, `decimalScale` and the `attributes` map. They are proved against the behaviour the code has, including its exception cases and what each setter leaves unchanged. The validator is a pure function of the column state.

Exceptions are values:

- `Outcome` (`Ok` or `Fail(error)`) for `void` methods;
- `Result` for methods that return a value.

An exception that stops `getDDLScript` or `createDatabase` part way through leaves the statements appended before it in the script. The model keeps them: `Emitted(stmts, outcome)` carries both.

Calls into classes outside this model are parameters:

- `H2Ddl.Render` holds `addSQL` of tables, columns and commands, `appendElementName` and `getValueString`, as uninterpreted string functions.
- `TableColumn.Env` holds the `ObjectUtils` conversions, `toString()` of non-String values and the lenient `SimpleDateFormat` parse, as partial functions.

Modelling decisions:

- `size` (a Java `double`) is a Dafny `real`, so `precision.scale` arithmetic is exact.
- The `(int)` and `(long)` casts are truncation toward zero (`DataTypes.JavaInt`), without 32- or 64-bit limits.
- `DataType.isText()` and `DataType` itself are defined outside these files:
  - `isText()` is taken to hold for TEXT, CHAR and CLOB.
  - `DataType` has both DOUBLE (named by the H2 switch) and FLOAT (named by `validate`).
- `isDDLColumnDefaults()` belongs to the base driver class. It is a constant of the driver object, given to its constructor.
- The identity test `idx == pk` in `createTable` is value equality of indexes.
- A `null` name is modelled as the empty string where the source treats null and "" the same: the name test of `dropObject` and the comment test of `createTable`.
- `ObjectUtils.isEmpty` (`TableColumn.IsEmptyValue`) holds for null and the empty string only; `StringUtils.isNotEmpty` in `createTable` (`H2Ddl.CommentClause`) is "not the empty string"; `StringUtils.coalesce` of the date pattern (`TableColumn.DBTableColumn.ConfiguredPattern`) takes the attribute's text when it is set and not empty, else the default pattern. None of them trims white space.
- The runtime class name that `dbo.getClass().getName()` contributes to NotImplemented messages is a field of `Schema.DbObject`.
- The driver that `dbo.getDatabase().getDriver()` returns is also a field of `Schema.DbObject`.

Files (one module each):

- `wrappers.dfy`: `Option`, `Outcome`, `Result` and the error kinds.
- `strings.dfy`: decimal rendering of integers, `Join`, prefixes.
- `datatypes.dfy`: `DataType`, `DataMode`, column attributes, values, exact decimals, Java casts.
- `schema.dfy`: tables, indexes, relations, views, databases, commands.
- `table_column.dfy`: `DBTableColumn`.
- `script.dfy`: `DBSQLScript`.
- `h2_phrases.dfy`: phrase and cast lookups.
- `h2_ddl.dfy`: the DDL specification and its lemmas.
- `h2_driver.dfy`: the driver class.
- `h2_examples.dfy`: concrete statements for small schemas.

## Model

| member | source | states |
|---|---|---|
| H2Phrases.GetSQLPhrase | empire-db/src/main/java/org/apache/empire/db/h2/DBDatabaseDriverH2.java:181-242 | the template of every phrase key is non-empty; it is the placeholder "?" exactly for the keys H2 has no template for |
| H2Phrases.GetConvertPhrase | empire-db/src/main/java/org/apache/empire/db/h2/DBDatabaseDriverH2.java:249-269 | the result is "?" exactly when the destination type has no CAST template; otherwise it starts with "CAST(? AS " |
| H2Phrases.ConvertIgnoresSourceAndFormat | empire-db/src/main/java/org/apache/empire/db/h2/DBDatabaseDriverH2.java:249-269 | the CAST template depends on the destination type alone: source type and format never change it |
| H2Driver.DBDatabaseDriverH2.constructor | empire-db/src/main/java/org/apache/empire/db/h2/DBDatabaseDriverH2.java:70-82 | no database name, useSequenceTable off, sequence table "Sequences" |
| H2Driver.DBDatabaseDriverH2.SetDatabaseName | empire-db/src/main/java/org/apache/empire/db/h2/DBDatabaseDriverH2.java:99-102 | sets the database name and leaves the other settings unchanged |
| H2Driver.DBDatabaseDriverH2.SetUseSequenceTable | empire-db/src/main/java/org/apache/empire/db/h2/DBDatabaseDriverH2.java:119-122 | sets useSequenceTable and leaves the other settings unchanged |
| H2Driver.DBDatabaseDriverH2.SetSequenceTableName | empire-db/src/main/java/org/apache/empire/db/h2/DBDatabaseDriverH2.java:138-141 | sets the sequence table name and leaves the other settings unchanged |
| H2Driver.DBDatabaseDriverH2.IsSupported | empire-db/src/main/java/org/apache/empire/db/h2/DBDatabaseDriverH2.java:163-173 | CREATE_SCHEMA is always supported, SEQUENCES exactly when useSequenceTable is set, every other feature never |
| DataTypes.JavaInt | empire-db/src/main/java/org/apache/empire/db/h2/DBDatabaseDriverH2.java:508 | the Java (int) cast of a size truncates toward zero: the result lies within one of the size, on the side of zero |
| Strings.ParseNatToString | empire-db/src/main/java/org/apache/empire/db/h2/DBDatabaseDriverH2.java:529-563 | the decimal digits that `String.valueOf` writes for a length, precision or scale read back as that number |
| H2Ddl.TypeMapping | empire-db/src/main/java/org/apache/empire/db/h2/DBDatabaseDriverH2.java:506-542 | INTEGER is BIGINT from size 8 and INT below; AUTOINC is INT AUTO_INCREMENT exactly without a sequence table and plain INT exactly with one; TEXT/CHAR of size 0 are VARCHAR(100)/CHAR(1), otherwise the absolute truncated size; UNIQUEID is CHAR(36) |
| H2Ddl.CharLengthIgnoresSign | empire-db/src/main/java/org/apache/empire/db/h2/DBDatabaseDriverH2.java:525-527 | a negative text size gives the same length as its absolute value; the length is positive or the default |
| H2Ddl.DecimalOfTenths | empire-db/src/main/java/org/apache/empire/db/h2/DBDatabaseDriverH2.java:555-565 | a DECIMAL of size k/10 renders as DECIMAL(whole part, tenths digit), and that rounded scale equals the truncated scale setSize stores |
| H2Ddl.ColumnNotNull | empire-db/src/main/java/org/apache/empire/db/h2/DBDatabaseDriverH2.java:589-590 | a column description starts with name, space and type, and ends in " NOT NULL" exactly when the column is required or auto-generated (otherwise it ends after the DEFAULT part) |
| H2Ddl.ColumnDefault | empire-db/src/main/java/org/apache/empire/db/h2/DBDatabaseDriverH2.java:584-587 | right after the type comes " DEFAULT " exactly when DDL defaults are on, the column is not auto-generated and its default is not null |
| H2Ddl.DefaultThenNotNull | empire-db/src/main/java/org/apache/empire/db/h2/DBDatabaseDriverH2.java:584-590 | the DEFAULT part followed by the NOT NULL part starts with " DEFAULT " exactly when the DEFAULT part is present |
| H2Driver.DBDatabaseDriverH2.TypeName | empire-db/src/main/java/org/apache/empire/db/h2/DBDatabaseDriverH2.java:504-582 | the type switch appends the type text the mapping assigns to the column's type |
| H2Driver.DBDatabaseDriverH2.AppendColumnDesc | empire-db/src/main/java/org/apache/empire/db/h2/DBDatabaseDriverH2.java:499-593 | appends the column's description to the buffer; returns false exactly for UNKNOWN, after the name and a space were already appended |
| H2Ddl.ColumnListFlag | empire-db/src/main/java/org/apache/empire/db/h2/DBDatabaseDriverH2.java:425-434 | after the column loop the separator flag is set exactly when some column is not UNKNOWN |
| H2Ddl.UnknownColumnLeaks | empire-db/src/main/java/org/apache/empire/db/h2/DBDatabaseDriverH2.java:429-432 | an UNKNOWN column leaves its separator, its name and a space in the column list, and does not switch the separator to a comma |
| H2Ddl.KnownColumnAppends | empire-db/src/main/java/org/apache/empire/db/h2/DBDatabaseDriverH2.java:429-433 | a column that is not UNKNOWN adds its separator and full description, and the next separator is a comma |
| H2Driver.DBDatabaseDriverH2.AppendNames | empire-db/src/main/java/org/apache/empire/db/h2/DBDatabaseDriverH2.java:441-448 | the addSeparator loop over a column list appends the rendered names joined by ", " |
| H2Driver.DBDatabaseDriverH2.TableStatementSql | empire-db/src/main/java/org/apache/empire/db/h2/DBDatabaseDriverH2.java:418-459 | builds the banner, CREATE TABLE, the column list, the PRIMARY KEY clause and the comment, as the table statement specifies |
| H2Driver.DBDatabaseDriverH2.IndexStatementSql | empire-db/src/main/java/org/apache/empire/db/h2/DBDatabaseDriverH2.java:471-487 | builds the CREATE [UNIQUE] INDEX statement of one index |
| H2Driver.DBDatabaseDriverH2.CreateTable | empire-db/src/main/java/org/apache/empire/db/h2/DBDatabaseDriverH2.java:416-491 | appends the CREATE TABLE statement and then, in index order, the statement of every index that is neither the primary key nor of kind PRIMARYKEY; nothing else changes in the script |
| H2Ddl.PrimaryKeyClauseShape | empire-db/src/main/java/org/apache/empire/db/h2/DBDatabaseDriverH2.java:436-450 | the PRIMARY KEY clause is present exactly when the table has a primary key, and then opens with ", PRIMARY KEY (" and ends with ")" |
| H2Ddl.IndexStatementsCount | empire-db/src/main/java/org/apache/empire/db/h2/DBDatabaseDriverH2.java:463-490 | the index loop emits one statement per secondary index position |
| H2Ddl.TableStmtsCount | empire-db/src/main/java/org/apache/empire/db/h2/DBDatabaseDriverH2.java:461-490 | createTable appends exactly 1 + (number of secondary indexes) statements |
| H2Ddl.IndexStatementKind | empire-db/src/main/java/org/apache/empire/db/h2/DBDatabaseDriverH2.java:472 | an index statement starts with CREATE UNIQUE INDEX exactly when the index is UNIQUE, otherwise with CREATE INDEX |
| H2Ddl.IndexStatementsExact | empire-db/src/main/java/org/apache/empire/db/h2/DBDatabaseDriverH2.java:463-490 | every emitted index statement belongs to a secondary index, and every secondary index has its statement among them |
| H2Ddl.TableStmtsKind | empire-db/src/main/java/org/apache/empire/db/h2/DBDatabaseDriverH2.java:416-491 | every statement createTable emits is a table banner or an index statement |
| H2Driver.DBDatabaseDriverH2.RelationStatementSql | empire-db/src/main/java/org/apache/empire/db/h2/DBDatabaseDriverH2.java:602-635 | builds the foreign-key statement: source table of the first reference, constraint name, source columns, target table, target columns |
| H2Driver.DBDatabaseDriverH2.CreateRelation | empire-db/src/main/java/org/apache/empire/db/h2/DBDatabaseDriverH2.java:600-638 | appends exactly the one foreign-key statement |
| H2Ddl.ViewEmitted | empire-db/src/main/java/org/apache/empire/db/h2/DBDatabaseDriverH2.java:676-708 | createView ends normally exactly when the view has a command, then with one statement starting "CREATE VIEW "; without a command it appends nothing and fails with NotImplemented "<name>.createCommand" |
| H2Ddl.ViewIgnoresOrderBy | empire-db/src/main/java/org/apache/empire/db/h2/DBDatabaseDriverH2.java:687-688 | the ORDER BY of the view's command does not influence the view DDL |
| H2Driver.DBDatabaseDriverH2.ViewStatementSql | empire-db/src/main/java/org/apache/empire/db/h2/DBDatabaseDriverH2.java:690-705 | builds CREATE VIEW with the rendered column names joined by ", " and the command without ORDER BY |
| H2Driver.DBDatabaseDriverH2.CreateView | empire-db/src/main/java/org/apache/empire/db/h2/DBDatabaseDriverH2.java:676-708 | appends what the view specification emits and returns its outcome |
| H2Driver.DBDatabaseDriverH2.AlterTable | empire-db/src/main/java/org/apache/empire/db/h2/DBDatabaseDriverH2.java:647-669 | appends one ALTER TABLE statement, ADD or ALTER with the column description, or DROP COLUMN with the name, whatever appendColumnDesc returned |
| H2Ddl.DropEmitted | empire-db/src/main/java/org/apache/empire/db/h2/DBDatabaseDriverH2.java:715-726 | an empty (or null) name fails with InvalidArg and appends nothing; otherwise exactly one statement "DROP " + type + " " + the name as appendElementName renders it |
| H2Driver.DBDatabaseDriverH2.DropObject | empire-db/src/main/java/org/apache/empire/db/h2/DBDatabaseDriverH2.java:715-726 | appends what dropObject specifies and returns its outcome |
| H2Driver.DBDatabaseDriverH2.CreateTables | empire-db/src/main/java/org/apache/empire/db/h2/DBDatabaseDriverH2.java:392-397 | the table loop appends every table's statements in table order |
| H2Driver.DBDatabaseDriverH2.CreateRelations | empire-db/src/main/java/org/apache/empire/db/h2/DBDatabaseDriverH2.java:398-403 | the relation loop appends every relation's statement in order |
| H2Driver.DBDatabaseDriverH2.CreateViews | empire-db/src/main/java/org/apache/empire/db/h2/DBDatabaseDriverH2.java:404-408 | the view loop appends the views in order and stops at the first view without a command, returning its failure |
| H2Ddl.ViewsEmittedStops | empire-db/src/main/java/org/apache/empire/db/h2/DBDatabaseDriverH2.java:404-408 | once a view has failed, the later views append nothing |
| H2Driver.DBDatabaseDriverH2.CreateDatabase | empire-db/src/main/java/org/apache/empire/db/h2/DBDatabaseDriverH2.java:376-409 | appends the tables', then the relations', then the views' statements and returns the views' outcome |
| H2Ddl.TablesStmtsKind | empire-db/src/main/java/org/apache/empire/db/h2/DBDatabaseDriverH2.java:392-397 | the table phase emits only table and index statements |
| H2Ddl.RelationsStmtsKind | empire-db/src/main/java/org/apache/empire/db/h2/DBDatabaseDriverH2.java:398-403 | the relation phase emits one foreign-key statement per relation |
| H2Ddl.ViewsEmittedKind | empire-db/src/main/java/org/apache/empire/db/h2/DBDatabaseDriverH2.java:404-408 | the view phase emits only CREATE VIEW statements, at most one per view; it ends normally exactly when every view has a command, and then with one per view |
| H2Ddl.StatementKindsDisjoint | empire-db/src/main/java/org/apache/empire/db/h2/DBDatabaseDriverH2.java:416-708 | table, relation and view statements are told apart by their first words |
| H2Ddl.DatabaseOrder | empire-db/src/main/java/org/apache/empire/db/h2/DBDatabaseDriverH2.java:376-409 | createDatabase emits all table statements, then exactly one statement per relation, then view statements; it ends normally exactly when every view has a command, and then emits one statement per view |
| H2Ddl.DDLScript | empire-db/src/main/java/org/apache/empire/db/h2/DBDatabaseDriverH2.java:292-358 | a null object, one of another driver, or an unknown kind of object fails with InvalidArg and appends nothing; every view or relation request fails; ALTER of anything but a column appends nothing and fails; a column request appends one statement and ends normally; ALTER of a database, table, view or relation is exactly NotImplemented "getDDLScript.<class>.ALTER" with nothing appended; CREATE of a view without a command is exactly NotImplemented "<name>.createCommand" with nothing appended |
| H2Driver.DBDatabaseDriverH2.GetDDLScript | empire-db/src/main/java/org/apache/empire/db/h2/DBDatabaseDriverH2.java:292-358 | appends what the dispatcher specifies and returns its outcome |
| H2Ddl.ViewCreateFallsThrough | empire-db/src/main/java/org/apache/empire/db/h2/DBDatabaseDriverH2.java:326-336 | CREATE of a named view with a command appends CREATE VIEW and then DROP VIEW of the same view, and fails with NotImplemented "getDDLScript.<class>.CREATE" |
| H2Ddl.RelationCreateFallsThrough | empire-db/src/main/java/org/apache/empire/db/h2/DBDatabaseDriverH2.java:338-348 | CREATE of a named relation appends the foreign key and then DROP CONSTRAINT of it, and fails with NotImplemented |
| H2Ddl.DropFallsThrough | empire-db/src/main/java/org/apache/empire/db/h2/DBDatabaseDriverH2.java:326-348 | DROP of a named view or relation appends the DROP statement and still fails with NotImplemented; without a name it fails with InvalidArg and appends nothing |
| H2Ddl.ViewOrRelationAlter | empire-db/src/main/java/org/apache/empire/db/h2/DBDatabaseDriverH2.java:326-348 | ALTER of a view or a relation appends nothing and fails with NotImplemented "getDDLScript.<class>.ALTER" |
| H2Ddl.ViewCreateWithoutCommand | empire-db/src/main/java/org/apache/empire/db/h2/DBDatabaseDriverH2.java:676-686 | CREATE of a view without a command appends nothing and fails with NotImplemented "<name>.createCommand", before the switch can fall through |
| H2Ddl.UnnamedViewCreate | empire-db/src/main/java/org/apache/empire/db/h2/DBDatabaseDriverH2.java:326-336 | CREATE of an unnamed view with a command appends CREATE VIEW, then fails with InvalidArg "name" in the fall-through to dropObject |
| H2Ddl.UnnamedRelationCreate | empire-db/src/main/java/org/apache/empire/db/h2/DBDatabaseDriverH2.java:338-348 | CREATE of an unnamed relation appends its foreign-key statement, then fails with InvalidArg "name" in the fall-through to dropObject |
| H2Ddl.TableAndDatabaseRequests | empire-db/src/main/java/org/apache/empire/db/h2/DBDatabaseDriverH2.java:299-324 | CREATE and DROP of a database or table are createDatabase/createTable/dropObject; ALTER fails with NotImplemented "getDDLScript.<class>.ALTER" |
| H2Ddl.ColumnRequest | empire-db/src/main/java/org/apache/empire/db/h2/DBDatabaseDriverH2.java:350-353 | a column request appends the one ALTER TABLE statement for that command and ends normally |
| H2Examples.IdFragment | empire-db/src/main/java/org/apache/empire/db/h2/DBDatabaseDriverH2.java:516-521 | an AUTOINC key without a sequence table is "id INT AUTO_INCREMENT NOT NULL" |
| H2Examples.UserNameFragment | empire-db/src/main/java/org/apache/empire/db/h2/DBDatabaseDriverH2.java:523-531 | a required TEXT column of size 50 is "name VARCHAR(50) NOT NULL" |
| H2Examples.UsersKeyWithSequenceTable | empire-db/src/main/java/org/apache/empire/db/h2/DBDatabaseDriverH2.java:516-521 | with a sequence table the same key is "id INT NOT NULL" |
| H2Examples.DecimalTenPointTwo | empire-db/src/main/java/org/apache/empire/db/h2/DBDatabaseDriverH2.java:555-565 | size 10.2 gives DECIMAL(10,2) |
| H2Examples.UsersIndexes | empire-db/src/main/java/org/apache/empire/db/h2/DBDatabaseDriverH2.java:463-490 | of a primary key and a unique index only the unique index gets a statement, "CREATE UNIQUE INDEX ix_name ON users (name)" |
| H2Examples.UsersCreateTable | empire-db/src/main/java/org/apache/empire/db/h2/DBDatabaseDriverH2.java:416-460 | the CREATE TABLE statement of users, piece by piece: banner, "CREATE TABLE users (", the two column descriptions with their separators, ", PRIMARY KEY (id)" and the closing parenthesis |
| H2Examples.UsersTable | empire-db/src/main/java/org/apache/empire/db/h2/DBDatabaseDriverH2.java:416-491 | the users table yields that CREATE TABLE statement followed by the unique index statement |
| H2Examples.OrdersReferenceUsers | empire-db/src/main/java/org/apache/empire/db/h2/DBDatabaseDriverH2.java:600-638 | the foreign key orders(user_id) to users(id) as it is rendered |
| H2Examples.UnknownColumnInList | empire-db/src/main/java/org/apache/empire/db/h2/DBDatabaseDriverH2.java:429-433 | an UNKNOWN column before an INTEGER one leaves "x " in the list and the INTEGER column gets no comma |
| H2Examples.AddUnknownColumn | empire-db/src/main/java/org/apache/empire/db/h2/DBDatabaseDriverH2.java:647-669 | ALTER TABLE … ADD of an UNKNOWN column is still emitted, as "ALTER TABLE t ADD x " |
| H2Examples.DropUnnamedTable | empire-db/src/main/java/org/apache/empire/db/h2/DBDatabaseDriverH2.java:715-717 | DROP of an unnamed table fails with InvalidArg "name" and appends nothing |
| H2Examples.AlterView | empire-db/src/main/java/org/apache/empire/db/h2/DBDatabaseDriverH2.java:334-335 | ALTER of a view fails with NotImplemented "getDDLScript.org.apache.empire.db.DBView.ALTER" |
| SqlScript.DBSQLScript.AddStmt | empire-db/src/main/java/org/apache/empire/db/h2/DBDatabaseDriverH2.java:461 | a statement is appended at the end; the earlier ones are kept |
| TableColumn.NormalizedMode | empire-db/src/main/java/org/apache/empire/db/DBTableColumn.java:78-80 | an AUTOINC column's mode is AutoGenerated; any other type keeps the given mode |
| TableColumn.NormalizedType | empire-db/src/main/java/org/apache/empire/db/DBTableColumn.java:78-82 | the type becomes AUTOINC exactly for AUTOINC or INTEGER with AutoGenerated; AUTOINC always has mode AutoGenerated; INTEGER never comes with AutoGenerated; only INTEGER is ever rewritten |
| TableColumn.DBTableColumn.constructor | empire-db/src/main/java/org/apache/empire/db/DBTableColumn.java:73-87 | the normalised type and mode, the given name, table and default, no attributes |
| TableColumn.DBTableColumn.Create | empire-db/src/main/java/org/apache/empire/db/DBTableColumn.java:73-95 | construction fails with InvalidArgument "size" exactly for a negative size on a non-text type; otherwise the column has the normalised type and mode, size abs(size), the DECIMAL scale from the tenths, and SINGLEBYTECHARS exactly for a negative size |
| TableColumn.DBTableColumn.IsRequired | empire-db/src/main/java/org/apache/empire/db/DBTableColumn.java:246-249 | a required column is never auto-generated, and (for a constructed column) never AUTOINC |
| TableColumn.DBTableColumn.IsAutoGenerated | empire-db/src/main/java/org/apache/empire/db/DBTableColumn.java:257-260 | every constructed AUTOINC column is auto-generated |
| TableColumn.DBTableColumn.IsReadOnly | empire-db/src/main/java/org/apache/empire/db/DBTableColumn.java:309-316 | the READONLY attribute or an auto-generated mode makes the column read-only; a column that is not read-only is Nullable or NotNull |
| TableColumn.DBTableColumn.IsSingleByteChars | empire-db/src/main/java/org/apache/empire/db/DBTableColumn.java:267-273 | false without the SINGLEBYTECHARS attribute; with the attribute set to a boolean, exactly that boolean |
| TableColumn.DBTableColumn.SetSize | empire-db/src/main/java/org/apache/empire/db/DBTableColumn.java:192-218 | a negative size on a non-text column throws InvalidArgument and changes nothing; otherwise the size becomes abs(size), SINGLEBYTECHARS is set for a negative size and removed for a non-negative one, a DECIMAL column's scale becomes the tenths digit; mode and default are unchanged |
| DataTypes.SizeScaleOfTenths | empire-db/src/main/java/org/apache/empire/db/DBTableColumn.java:213-217 | for a size k/10 the stored precision is k div 10 and the stored scale the tenths digit k mod 10 |
| TableColumn.DBTableColumn.SetDecimalScale | empire-db/src/main/java/org/apache/empire/db/DBTableColumn.java:232-238 | on a non-DECIMAL column throws NotSupported and leaves the scale unchanged; otherwise sets it; nothing else changes |
| TableColumn.DBTableColumn.SetRequired | empire-db/src/main/java/org/apache/empire/db/DBTableColumn.java:291-301 | on an auto-generated column throws PropertyReadOnly and leaves the mode unchanged; otherwise afterwards isRequired() == required; nothing else changes |
| TableColumn.DBTableColumn.SetReadOnly | empire-db/src/main/java/org/apache/empire/db/DBTableColumn.java:309-334 | adds or removes the READONLY attribute; afterwards isReadOnly() holds exactly when readOnly was requested or the mode is ReadOnly or AutoGenerated |
| TableColumn.DBTableColumn.SetSingleByteChars | empire-db/src/main/java/org/apache/empire/db/DBTableColumn.java:267-284 | on a non-text column throws NotSupported and changes nothing; otherwise sets the attribute, and isSingleByteChars() then returns the given flag |
| TableColumn.DBTableColumn.GetRecordDefaultValue | empire-db/src/main/java/org/apache/empire/db/DBTableColumn.java:147-163 | without a table, or for a column that is not auto-generated, the default value; for an auto-generated column of a table, null without a connection and the driver's value with one |
| TableColumn.DatePattern | empire-db/src/main/java/org/apache/empire/db/DBTableColumn.java:362-364 | the pattern used is a prefix of the configured one; it is shortened exactly when the column is DATE or the text has at most 12 characters, and the pattern has a space that is not its first character; a shortened pattern ends just before its first space |
| TableColumn.DBTableColumn.ValidateNumber | empire-db/src/main/java/org/apache/empire/db/DBTableColumn.java:448-491 | passes exactly when the long value lies within every bound that is set and, for DECIMAL, precision − scale and scale fit the declared ones; a failure is OutOfRange naming both bounds, the minimum or the maximum as in the three branches, or no bound for the DECIMAL check |
| TableColumn.DBTableColumn.Validate | empire-db/src/main/java/org/apache/empire/db/DBTableColumn.java:345-446 | FieldNotNull exactly for an empty value on a required column; every error is a field error of this column; TEXT/CHAR fail, with FieldValueTooLong, exactly for a text longer than the size and otherwise return the value; DATE/DATETIME pass null, dates and SYSDATE unchanged, turn an empty text into null, parse any other text with the trimmed date pattern and fail with FieldIllegalValue(text) when parsing fails, else return the parsed date; DECIMAL/FLOAT/INTEGER convert a non-number with toDecimal/toDouble/toLong, fail with FieldIllegalValue(text) when that fails, and otherwise return the converted number exactly when validateNumber passes (a number goes straight to validateNumber); types without a check return the value; on a column that is not required, null validates to null |
| TableColumn.ValidateIdempotent | empire-db/src/main/java/org/apache/empire/db/DBTableColumn.java:345-446 | validating a validated value again gives the same result, except when a required date column turned an empty text into null |
| TableColumn.RevalidationOfEmptyText | empire-db/src/main/java/org/apache/empire/db/DBTableColumn.java:348-360 | that exception happens: an empty non-String value on a required DATE column validates to null, and null then fails with FieldNotNull |
| TableColumn.TextLengthBoundary | empire-db/src/main/java/org/apache/empire/db/DBTableColumn.java:433-437 | a TEXT column of size 5 accepts five characters unchanged and rejects six with FieldValueTooLong |
| TableColumn.IntegerRangeBoundary | empire-db/src/main/java/org/apache/empire/db/DBTableColumn.java:451-460 | an INTEGER column with bounds 1 and 10 accepts 1 and 10 and rejects 0 and 11 with OutOfRange naming both bounds |
| TableColumn.DBTableColumn.GetSequenceName | empire-db/src/main/java/org/apache/empire/db/DBTableColumn.java:548-568 | the default value's text when there is a default; otherwise table name "." column name, or only the column name without a table |

## Left out

- `BeanRecordProxy` is not part of this model: it is a reflection adapter over commons-beanutils.
- `getNextSequenceValue` needs a database connection; `getUpdateTimestamp` reads the clock. Neither is modelled.
- `createCommand` (the factory of the H2 command class) and the `DBCommandH2` class carry no DDL logic and are not modelled. The same goes for the three getters of the configuration fields, which only read the fields.
- The commented-out CREATE DATABASE/USE code in `createDatabase` is inactive in the source and is not modelled; the `createSchema` flag it would read is dropped.
- Logging calls are not modelled.
- The internals of `addSQL`, `appendElementName`, `getValueString`, `DBCommandExpr.addSQL` and `clearOrderBy` belong to classes not part of this model; they are the uninterpreted functions of `H2Ddl.Render` (clearing ORDER BY is the update `orderBy := []` of the command).
- `DBTableColumn.validate`: date parsing with `SimpleDateFormat` and the `ObjectUtils.toDecimal/toDouble/toLong/getLong/getBoolean` conversions are the partial functions of `TableColumn.Env`: `Validate` states how their results and failures become its result, but nothing is stated about what they accept or return.
- FLOAT values: `validate` converts them with `toDouble` (an `Env` function) and checks them with `validateNumber` like the other numbers; IEEE `double` rounding of sizes and values is not modelled, since all arithmetic on `size` is exact.
- DataTypes.JavaInt: does not model 32-bit or 64-bit overflow of the `(int)`/`(long)` casts of very large sizes, which Java saturates.
- `DBTableColumn.addXml` (DOM output), `referenceOn`, `getDefaultValue`/`setDefaultValue`, the clone constructor and `table.addColumn(this)` in the constructor are not modelled: they produce XML, build objects of classes not part of this model, or only read and write one field.
- A `null` table, relation or view name elsewhere is not modelled: the source would print it as "null" in the table and foreign-key banners and in the "null.createCommand" message, where the model uses "".
- The examples in `H2Examples` state the longer statements piece by piece (as concatenations of their literal parts) rather than as one literal.
- TableColumn.DBTableColumn.Validate: the TEXT/CHAR length is the number of Unicode characters of the text, while Java's `String.length()` counts UTF-16 code units; a character outside the Basic Multilingual Plane counts once here and twice in the source.
- TableColumn.DBTableColumn.ValidateNumber: the long value of a number (`DataTypes.LongValue`) is exact; `BigDecimal.longValue()` keeps only the low 64 bits, so the bounds checks of numbers outside the 64-bit range are not modelled as Java computes them.
- TableColumn.DatePattern: the "at most 12 characters" test of the DATE/DATETIME branch counts Unicode characters, while Java's `String.length()` counts UTF-16 code units; a date text with a character outside the Basic Multilingual Plane can get the shortened pattern here and the full pattern in the source.
