/** DBSQLScript as the DDL generator uses it: an append-only list of
    statements. */
module SqlScript {

  class DBSQLScript {
    var stmts: seq<string>

    constructor()
      ensures stmts == []
    {
      stmts := [];
    }

    /** addStmt: the statement goes at the end; earlier ones are kept. */
    method AddStmt(s: string)
      modifies this
      ensures stmts == old(stmts) + [s]
    {
      stmts := stmts + [s];
    }
  }
}
