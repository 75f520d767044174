/**
 * The external systems the service talks to, reduced to what it observes of
 * them: the Postgres pool (transactions of one INSERT each), the MSSQL
 * database (one stored-procedure call with an output parameter) and the CRM
 * endpoint (one POST per submission). What each call answers is an argument
 * of the call; each object keeps a trace of the calls made to it.
 */
module Sinks {
  import opened Wrappers
  import opened Validation
  import opened Model

  /** A value bound to a SQL parameter. */
  datatype SqlArg = SText(s: string) | SInt(i: int) | SBool(b: bool)

  /** The SQL argument a validated field value is bound as. */
  function SqlOf(v: Value): SqlArg {
    match v
    case Text(s) => SText(s)
    case Number(n) => SInt(n)
    case Flag(b) => SBool(b)
  }

  /** `insert into <table> values($1, ..., $<placeholders>)`. */
  datatype InsertQuery = InsertQuery(table: string, placeholders: nat)

  /** A failed database step: the driver's own error, or an argument count that does not fit the statement. */
  datatype DbError = Driver(message: string) | ArgCount(expected: nat, got: nat)

  /** What the database answers to each step of a transaction: None for success, else its error text. */
  datatype TxFaults = TxFaults(begin: Option<string>, exec: Option<string>, commit: Option<string>)

  datatype TxEvent = TxBegin | TxExec(query: InsertQuery, args: seq<SqlArg>) | TxCommit

  /** A committed row. */
  datatype Row = Row(table: string, values: seq<SqlArg>)

  function DriverError(fault: Option<string>): (err: Option<DbError>)
    ensures err.None? <==> fault.None?
  {
    match fault
    case None => None
    case Some(m) => Some(Driver(m))
  }

  /**
   * The answer to executing `q` with `args`: the driver refuses an argument
   * list whose length differs from the number of placeholders before it
   * reaches the server; otherwise the server's answer stands.
   */
  function ExecError(q: InsertQuery, args: seq<SqlArg>, fault: Option<string>): (err: Option<DbError>)
    ensures |args| != q.placeholders ==> err == Some(ArgCount(q.placeholders, |args|))
    ensures |args| == q.placeholders ==> (err.None? <==> fault.None?)
  {
    if |args| != q.placeholders then Some(ArgCount(q.placeholders, |args|)) else DriverError(fault)
  }

  /** The calls one insert makes: Begin, then Exec if Begin succeeded, then Commit if Exec succeeded. */
  function TxTrace(q: InsertQuery, args: seq<SqlArg>, f: TxFaults): seq<TxEvent> {
    if f.begin.Some? then [TxBegin]
    else if ExecError(q, args, f.exec).Some? then [TxBegin, TxExec(q, args)]
    else [TxBegin, TxExec(q, args), TxCommit]
  }

  /** What one insert returns: the first failing step's error, or None after a successful Commit. */
  function TxResult(q: InsertQuery, args: seq<SqlArg>, f: TxFaults): Option<DbError> {
    if f.begin.Some? then DriverError(f.begin)
    else if ExecError(q, args, f.exec).Some? then ExecError(q, args, f.exec)
    else DriverError(f.commit)
  }

  function CountCommits(t: seq<TxEvent>): nat {
    if t == [] then 0 else (if t[0] == TxCommit then 1 else 0) + CountCommits(t[1..])
  }

  /**
   * The transaction protocol every insert follows: it always begins; a
   * failed Begin means no Exec; a failed Exec means no Commit; at most one
   * Commit; and it reports success only when the Commit was made and
   * succeeded.
   */
  lemma TxProtocol(q: InsertQuery, args: seq<SqlArg>, f: TxFaults)
    ensures TxTrace(q, args, f)[0] == TxBegin
    ensures f.begin.Some? ==> TxTrace(q, args, f) == [TxBegin]
    ensures f.begin.None? && ExecError(q, args, f.exec).Some? ==> TxCommit !in TxTrace(q, args, f)
    ensures CountCommits(TxTrace(q, args, f)) <= 1
    ensures TxResult(q, args, f).None? ==>
      TxTrace(q, args, f) == [TxBegin, TxExec(q, args), TxCommit] && f.commit.None?
  {
    var t := TxTrace(q, args, f);
    assert CountCommits([TxCommit]) == 1;
    assert CountCommits([TxExec(q, args), TxCommit]) == 1;
    if f.begin.None? && ExecError(q, args, f.exec).None? {
      assert t[1..] == [TxExec(q, args), TxCommit];
    } else if f.begin.None? {
      assert t[1..] == [TxExec(q, args)];
      assert t[1..][1..] == [];
    }
  }

  /** An insert succeeds exactly when the arguments fit the placeholders and no step fails. */
  lemma TxSucceedsIff(q: InsertQuery, args: seq<SqlArg>, f: TxFaults)
    ensures TxResult(q, args, f).None? <==>
      |args| == q.placeholders && f.begin.None? && f.exec.None? && f.commit.None?
  {
  }

  /** A Postgres connection pool; `rows` holds what committed transactions inserted. */
  class PgPool {
    var rows: seq<Row>
    var pending: Option<Row>
    ghost var trace: seq<TxEvent>

    constructor()
      ensures rows == [] && pending == None && trace == []
    {
      rows := [];
      pending := None;
      trace := [];
    }

    /** Opens a transaction. */
    method Begin(fault: Option<string>) returns (err: Option<DbError>)
      modifies this
      ensures err == DriverError(fault)
      ensures trace == old(trace) + [TxBegin]
      ensures rows == old(rows) && pending == None
    {
      trace := trace + [TxBegin];
      pending := None;
      err := DriverError(fault);
    }

    /** Executes an INSERT in the open transaction; a successful one becomes pending. */
    method Exec(q: InsertQuery, args: seq<SqlArg>, fault: Option<string>) returns (err: Option<DbError>)
      modifies this
      ensures err == ExecError(q, args, fault)
      ensures trace == old(trace) + [TxExec(q, args)]
      ensures rows == old(rows)
      ensures pending == if err.None? then Some(Row(q.table, args)) else old(pending)
    {
      trace := trace + [TxExec(q, args)];
      err := ExecError(q, args, fault);
      if err.None? {
        pending := Some(Row(q.table, args));
      }
    }

    /** Commits the open transaction; on success its pending row is stored. */
    method Commit(fault: Option<string>) returns (err: Option<DbError>)
      modifies this
      ensures err == DriverError(fault)
      ensures trace == old(trace) + [TxCommit]
      ensures rows == if err.None? && old(pending).Some? then old(rows) + [old(pending).value] else old(rows)
      ensures pending == None
    {
      trace := trace + [TxCommit];
      err := DriverError(fault);
      if err.None? && pending.Some? {
        rows := rows + [pending.value];
      }
      pending := None;
    }
  }

  /** A named parameter of a stored-procedure call: an input value, or the output slot. */
  datatype NamedArg = Input(name: string, value: SqlArg) | Output(name: string)

  /** An MSSQL database; `calls` records each stored-procedure call. */
  class MssqlDb {
    ghost var calls: seq<(string, seq<NamedArg>)>

    constructor()
      ensures calls == []
    {
      calls := [];
    }

    /**
     * Calls a stored procedure. `reply` is the database's answer: the text
     * it leaves in the output parameter, or its error.
     */
    method Exec(proc: string, params: seq<NamedArg>, reply: Result<string, string>)
      returns (out: Result<string, string>)
      modifies this
      ensures out == reply
      ensures calls == old(calls) + [(proc, params)]
    {
      calls := calls + [(proc, params)];
      out := reply;
    }
  }

  /**
   * The CRM's HTTP endpoint. `reply` is what a POST yields: a transport or
   * decoding error, or the decoded body, which is None when the body is
   * JSON null.
   */
  class CrmEndpoint {
    ghost var posted: seq<seq<(string, string)>>

    constructor()
      ensures posted == []
    {
      posted := [];
    }

    method Post(payload: seq<(string, string)>, reply: Result<Option<ResponseGazCrm>, string>)
      returns (r: Result<Option<ResponseGazCrm>, string>)
      modifies this
      ensures r == reply
      ensures posted == old(posted) + [payload]
    {
      posted := posted + [payload];
      r := reply;
    }
  }
}
