/**
 * The store: the two database handles, the configuration, and the two
 * repositories it creates on first use and hands out again afterwards. The
 * data repository's operations are the service's writes: the MSSQL booking
 * procedure, the five Postgres inserts and the two CRM requests.
 */
module SqlStore {
  import opened Wrappers
  import opened Validation
  import opened Model
  import opened Sinks
  import opened SqlStatements
  import opened CrmRequest
  import BookingValidation

  /** The part of the service configuration the repositories read: the booking procedure's name. */
  datatype Config = Config(bookingProc: string)

  /** Why a repository operation failed: the booking did not validate, or a database step failed. */
  datatype RepoError = Invalid(errors: map<JsonKey, Rule>) | Db(cause: DbError)

  class Store {
    const dbPostgres: PgPool
    const dbMssql: MssqlDb
    const config: Config
    var userRepository: UserRepository?
    var dataRepository: DataRepository?

    /** A cached repository is always bound to this store. */
    predicate Valid()
      reads this
    {
      (userRepository != null ==> userRepository.store == this) &&
      (dataRepository != null ==> dataRepository.store == this)
    }

    /** Keeps the handles and the configuration; neither repository exists yet. */
    constructor New(db: PgPool, dbmssql: MssqlDb, config: Config)
      ensures dbPostgres == db && dbMssql == dbmssql && this.config == config
      ensures userRepository == null && dataRepository == null
      ensures Valid()
    {
      dbPostgres := db;
      dbMssql := dbmssql;
      this.config := config;
      userRepository := null;
      dataRepository := null;
    }

    /** The user repository: the cached one, else a new one bound to this store, now cached. */
    method User() returns (r: UserRepository)
      requires Valid()
      modifies this
      ensures Valid()
      ensures r == userRepository && r.store == this
      ensures old(userRepository) != null ==> r == old(userRepository)
      ensures old(userRepository) == null ==> fresh(r)
      ensures dataRepository == old(dataRepository)
    {
      if userRepository != null {
        return userRepository;
      }
      r := new UserRepository(this);
      userRepository := r;
    }

    /** The data repository: the cached one, else a new one bound to this store, now cached. */
    method Data() returns (r: DataRepository)
      requires Valid()
      modifies this
      ensures Valid()
      ensures r == dataRepository && r.store == this
      ensures old(dataRepository) != null ==> r == old(dataRepository)
      ensures old(dataRepository) == null ==> fresh(r)
      ensures userRepository == old(userRepository)
    {
      if dataRepository != null {
        return dataRepository;
      }
      r := new DataRepository(this);
      dataRepository := r;
    }
  }

  /** Two calls of `User` or of `Data` in a row hand out the same object. */
  method RepositoriesAreMemoised(s: Store) returns (u1: UserRepository, u2: UserRepository,
                                                    d1: DataRepository, d2: DataRepository)
    requires s.Valid()
    modifies s
    ensures u1 == u2 && d1 == d2
    ensures u1.store == s && d1.store == s
    ensures s.userRepository == u1 && s.dataRepository == d1
  {
    u1 := s.User();
    d1 := s.Data();
    u2 := s.User();
    d2 := s.Data();
  }

  /**
   * The user repository. Credential lookup and JWT handling are not part of
   * this model: the handlers receive their answers as arguments.
   */
  class UserRepository {
    const store: Store

    constructor(store: Store)
      ensures this.store == store
    {
      this.store := store;
    }
  }

  class DataRepository {
    const store: Store

    constructor(store: Store)
      ensures this.store == store
    {
      this.store := store;
    }

    /**
     * Validates a booking and passes it to the booking procedure. An invalid
     * booking is refused before the procedure is called; otherwise the
     * procedure's error, or the text it leaves in its output parameter, is
     * the answer.
     */
    method QueryInsertMssql(data: DataBooking, reply: Result<string, string>)
      returns (resp: string, err: Option<RepoError>)
      modifies store.dbMssql
      ensures BookingValidation.ValidateDataBooking(data) != map[] ==>
        resp == "" && err == Some(Invalid(BookingValidation.ValidateDataBooking(data))) &&
        store.dbMssql.calls == old(store.dbMssql.calls)
      ensures BookingValidation.ValidateDataBooking(data) == map[] ==>
        store.dbMssql.calls == old(store.dbMssql.calls) + [(store.config.bookingProc, MssqlParams(data))] &&
        match reply
        case Ok(out) => resp == out && err == None
        case Err(m) => resp == "" && err == Some(Db(Driver(m)))
    {
      var errs := BookingValidation.ValidateDataBooking(data);
      if errs != map[] {
        return "", Some(Invalid(errs));
      }
      var out := store.dbMssql.Exec(store.config.bookingProc, MssqlParams(data), reply);
      if out.Err? {
        return "", Some(Db(Driver(out.error)));
      }
      return out.value, None;
    }

    /** Runs one INSERT in its own transaction: Begin, Exec, Commit, stopping at the first failure. */
    method InsertInTransaction(q: InsertQuery, args: seq<SqlArg>, f: TxFaults) returns (err: Option<DbError>)
      modifies store.dbPostgres
      ensures err == TxResult(q, args, f)
      ensures store.dbPostgres.trace == old(store.dbPostgres.trace) + TxTrace(q, args, f)
      ensures store.dbPostgres.rows ==
        if err.None? then old(store.dbPostgres.rows) + [Row(q.table, args)] else old(store.dbPostgres.rows)
    {
      var db := store.dbPostgres;
      err := db.Begin(f.begin);
      if err.Some? {
        return;
      }
      err := db.Exec(q, args, f.exec);
      if err.Some? {
        return;
      }
      err := db.Commit(f.commit);
    }

    /**
     * Stores a booking with the statement as written: its 40 values do not
     * fit the 39 placeholders, so Exec is refused (unless Begin failed
     * first), nothing is committed and no row is ever stored.
     */
    method QueryInsertBookingPostgres(data: DataBooking, f: TxFaults) returns (err: Option<DbError>)
      modifies store.dbPostgres
      ensures err == TxResult(BookingInsertAsWritten, BookingRow(data), f)
      ensures err == if f.begin.Some? then Some(Driver(f.begin.value)) else Some(ArgCount(39, 40))
      ensures store.dbPostgres.trace ==
        old(store.dbPostgres.trace) + TxTrace(BookingInsertAsWritten, BookingRow(data), f)
      ensures TxCommit !in store.dbPostgres.trace[|old(store.dbPostgres.trace)|..]
      ensures store.dbPostgres.rows == old(store.dbPostgres.rows)
    {
      err := InsertInTransaction(BookingInsertAsWritten, BookingRow(data), f);
      BookingInsertAsWrittenNeverCommits(data, f);
    }

    method QueryInsertFormsPostgres(data: DataForms, f: TxFaults) returns (err: Option<DbError>)
      modifies store.dbPostgres
      ensures err == TxResult(FormsInsert, FormsRow(data), f)
      ensures store.dbPostgres.trace == old(store.dbPostgres.trace) + TxTrace(FormsInsert, FormsRow(data), f)
      ensures store.dbPostgres.rows ==
        if err.None? then old(store.dbPostgres.rows) + [Row("forms", FormsRow(data))]
        else old(store.dbPostgres.rows)
    {
      err := InsertInTransaction(FormsInsert, FormsRow(data), f);
    }

    method QueryInsertLeadGetPostgres(data: DataLeadGet, f: TxFaults) returns (err: Option<DbError>)
      modifies store.dbPostgres
      ensures err == TxResult(LeadGetInsert, LeadGetRow(data), f)
      ensures store.dbPostgres.trace == old(store.dbPostgres.trace) + TxTrace(LeadGetInsert, LeadGetRow(data), f)
      ensures store.dbPostgres.rows ==
        if err.None? then old(store.dbPostgres.rows) + [Row("gazcrm_lead_get", LeadGetRow(data))]
        else old(store.dbPostgres.rows)
    {
      err := InsertInTransaction(LeadGetInsert, LeadGetRow(data), f);
    }

    method QueryInsertWorkListsPostgres(data: DataWorkList, f: TxFaults) returns (err: Option<DbError>)
      modifies store.dbPostgres
      ensures err == TxResult(WorkListInsert, WorkListRow(data), f)
      ensures store.dbPostgres.trace == old(store.dbPostgres.trace) + TxTrace(WorkListInsert, WorkListRow(data), f)
      ensures store.dbPostgres.rows ==
        if err.None? then old(store.dbPostgres.rows) + [Row("gazcrm_work_list", WorkListRow(data))]
        else old(store.dbPostgres.rows)
    {
      err := InsertInTransaction(WorkListInsert, WorkListRow(data), f);
    }

    method QueryInsertStatusesPostgres(data: DataStatuses, f: TxFaults) returns (err: Option<DbError>)
      modifies store.dbPostgres
      ensures err == TxResult(StatusesInsert, StatusesRow(data), f)
      ensures store.dbPostgres.trace == old(store.dbPostgres.trace) + TxTrace(StatusesInsert, StatusesRow(data), f)
      ensures store.dbPostgres.rows ==
        if err.None? then old(store.dbPostgres.rows) + [Row("gazcrm_statuses", StatusesRow(data))]
        else old(store.dbPostgres.rows)
    {
      err := InsertInTransaction(StatusesInsert, StatusesRow(data), f);
    }

    /** Posts a booking's CRM request; the answer is what the endpoint yields. */
    method RequestGazCrmApiBooking(data: DataBooking, crm: CrmEndpoint, reply: Result<Option<ResponseGazCrm>, string>)
      returns (r: Result<Option<ResponseGazCrm>, string>)
      modifies crm
      ensures r == reply
      ensures crm.posted == old(crm.posted) + [CrmPayloadBooking(data)]
    {
      r := crm.Post(CrmPayloadBooking(data), reply);
    }

    /** Posts a form's CRM request; the answer is what the endpoint yields. */
    method RequestGazCrmApiForms(data: DataForms, crm: CrmEndpoint, reply: Result<Option<ResponseGazCrm>, string>)
      returns (r: Result<Option<ResponseGazCrm>, string>)
      modifies crm
      ensures r == reply
      ensures crm.posted == old(crm.posted) + [CrmPayloadForms(data)]
    {
      r := crm.Post(CrmPayloadForms(data), reply);
    }
  }
}
