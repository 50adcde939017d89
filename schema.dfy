/** The schema graph that DDL generation reads: columns, indexes, tables,
    foreign-key relations, views and the database, plus the objects a DDL
    request can name. References between objects are by name. */
module Schema {
  import opened Wrappers
  import opened DataTypes

  /** What the generator reads of a DBTableColumn. */
  datatype ColumnSpec = ColumnSpec(
    name: string,
    dataType: DataType,
    size: real,
    mode: DataMode,
    defaultValue: Value)
  {
    /** DBTableColumn.isRequired(). */
    predicate IsRequired() { mode == NotNull }
    /** DBTableColumn.isAutoGenerated(). */
    predicate IsAutoGenerated() { mode == AutoGenerated }
  }

  /** DBIndex.STANDARD, DBIndex.UNIQUE, DBIndex.PRIMARYKEY. */
  datatype IndexKind = Standard | Unique | PrimaryKey

  datatype Index = Index(name: string, kind: IndexKind, columns: seq<string>)

  /** A table; an absent comment is the empty string (the generator treats
      null and empty alike). */
  datatype Table = Table(
    name: string,
    columns: seq<ColumnSpec>,
    primaryKey: Option<Index>,
    indexes: seq<Index>,
    comment: string)

  /** A column of a named table. */
  datatype ColumnRef = ColumnRef(table: string, column: string)

  /** DBRelation.DBReference: a source column and the target column it refers to. */
  datatype Reference = Reference(source: ColumnRef, target: ColumnRef)

  /** A relation always has at least one reference. */
  type References = s: seq<Reference> | |s| > 0
    witness [Reference(ColumnRef("", ""), ColumnRef("", ""))]

  datatype Relation = Relation(name: string, references: References)

  /** The command a view is defined by; only whether it has an ORDER BY
      matters to the generator, the rest is rendered by the command itself. */
  datatype Command = Command(select: string, orderBy: seq<string>)

  /** A view: its name, the names of its columns and the command that
      DBView.createCommand() returns (None for null). */
  datatype View = View(name: string, columns: seq<string>, command: Option<Command>)

  /** A database; an absent schema name is the empty string. */
  datatype Database = Database(
    schema: string,
    tables: seq<Table>,
    relations: seq<Relation>,
    views: seq<View>)

  /** DBCmdType. */
  datatype CmdType = Create | Drop | Alter

  /** The runtime class of the object handed to getDDLScript. */
  datatype ObjectKind =
    | DatabaseObj(db: Database)
    | TableObj(table: Table)
    | ViewObj(view: View)
    | RelationObj(relation: Relation)
    | ColumnObj(column: ColumnSpec, owner: string)
    | OtherObj

  /** A DBObject: what it is, the fully qualified name of its runtime class
      (which error messages quote) and the driver of its database. */
  datatype DbObject = DbObject(kind: ObjectKind, className: string, driver: object?)
}
