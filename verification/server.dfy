/**
 * The HTTP handlers of the service: authentication, the token-checking
 * middleware, booking and form submission, and the three CRM callbacks.
 *
 * What the outside world answers (the decoded request body, the credential
 * and token checks, the MSSQL procedure, the CRM, each Postgres step) is an
 * argument of the handler. Each handler writes its answer into a response
 * writer and records its side effects in the server's event trace; a
 * function of the same arguments says what the answer must be.
 */
module Server {
  import opened Wrappers
  import opened Model
  import opened Sinks
  import opened SqlStatements
  import opened CrmRequest
  import opened SqlStore
  import BookingValidation

  /** The JSON documents the handlers write. */
  datatype Json =
    | ErrorBody(error: string)
    | ResponseBody(status: string, response: string)
    | BookingBody(statusMs: string, responseMs: string, statusGazCrm: string, responseGazCrm: string)
    | TokenBody(token: string, exp: int)

  /** The answer to one request: a status code and the documents written, or a crash with nothing written. */
  datatype Outcome = Reply(code: int, body: seq<Json>) | Crash

  /** The side effects of the handlers, in the order they happen. */
  datatype Event =
    | LookedUpUser(email: string)
    | IssuedToken(userId: nat)
    | CheckedToken
    | LookedUpUserId(userId: nat)
    | PassedToHandler
    | CalledMssql
    | PostedCrm
    | Wrote(code: int)
    | InsertedPg(table: string)
    | Crashed

  const BadRequest := 400
  const Unauthorized := 401
  const StatusOK := 200

  const ErrIncorrectAuth := "incorrect auth"
  const ErrRegistration := "service registration error"
  const ErrJwt := "token error"
  const ErrFindUser := "user not found"
  const ErrMssql := "mssql error"
  const ErrPostgres := "error postgres storing"
  const AckLeadGet := "data lead_get recieved"
  const AckWorkList := "data work_list recieved"
  const AckStatuses := "data statuses recieved"
  const AckBooking := "data booking sent to gazcrm"
  const AckForm := "data form sent to gazcrm"
  /** The procedure's output text for a booking it accepted. */
  const MssqlSuccess := "Обработка данных прошла успешно"

  /** The login request body. */
  datatype Credentials = Credentials(email: string, password: string)

  /** A decimal numeral. */
  function NatText(n: nat): (s: string)
    ensures |s| >= 1
  {
    if n < 10 then [('0' as int + n) as char] else NatText(n / 10) + [('0' as int + n % 10) as char]
  }

  /** The text of a database error, as the handlers write it. */
  function DbErrorText(e: DbError): string {
    match e
    case Driver(m) => m
    case ArgCount(expected, got) => "expected " + NatText(expected) + " arguments, got " + NatText(got)
  }

  /** A writer for one response: the first status written is the one sent. */
  class ResponseWriter {
    var code: Option<int>
    var body: seq<Json>

    constructor()
      ensures code == None && body == []
    {
      code := None;
      body := [];
    }

    method WriteHeader(c: int)
      modifies this
      ensures code == if old(code).None? then Some(c) else old(code)
      ensures body == old(body)
    {
      if code.None? {
        code := Some(c);
      }
    }

    method Encode(j: Json)
      modifies this
      ensures code == if old(code).None? then Some(StatusOK) else old(code)
      ensures body == old(body) + [j]
    {
      if code.None? {
        code := Some(StatusOK);
      }
      body := body + [j];
    }

    /** The writer holds exactly the given outcome. */
    predicate Shows(o: Outcome)
      reads this
    {
      match o
      case Crash => code.None? && body == []
      case Reply(c, b) => code == Some(c) && body == b
    }
  }

  /** The legacy status of a booking: "Ok" when the procedure reported success, else "Error". */
  function StatusMs(resp: string): (s: string)
    ensures s == "Ok" <==> resp == MssqlSuccess
    ensures s == "Error" <==> resp != MssqlSuccess
  {
    if resp != MssqlSuccess then "Error" else "Ok"
  }

  // ---------------------------------------------------------------------
  // What each handler answers

  function AuthOutcome(req: Result<Credentials, string>, user: Result<nat, string>,
                       token: Result<(string, int), string>): Outcome
  {
    if req.Err? then Reply(BadRequest, [ErrorBody(ErrRegistration)])
    else if user.Err? then Reply(Unauthorized, [ErrorBody(ErrIncorrectAuth)])
    else if token.Err? then Reply(BadRequest, [ErrorBody(ErrJwt)])
    else Reply(StatusOK, [TokenBody(token.value.0, token.value.1)])
  }

  function AuthEvents(req: Result<Credentials, string>, user: Result<nat, string>,
                      token: Result<(string, int), string>): seq<Event>
  {
    var code := AuthOutcome(req, user, token).code;
    if req.Err? then [Wrote(code)]
    else if user.Err? then [LookedUpUser(req.value.email), Wrote(code)]
    else [LookedUpUser(req.value.email), IssuedToken(user.value), Wrote(code)]
  }

  /** Login succeeds exactly when every step does; each failure has its own code and message. */
  lemma AuthOutcomes(req: Result<Credentials, string>, user: Result<nat, string>,
                     token: Result<(string, int), string>)
    ensures AuthOutcome(req, user, token).Reply?
    ensures AuthOutcome(req, user, token).code == StatusOK <==> req.Ok? && user.Ok? && token.Ok?
    ensures req.Err? ==> AuthOutcome(req, user, token) == Reply(400, [ErrorBody("service registration error")])
    ensures req.Ok? && user.Err? ==> AuthOutcome(req, user, token) == Reply(401, [ErrorBody("incorrect auth")])
    ensures req.Ok? && user.Ok? && token.Err? ==> AuthOutcome(req, user, token) == Reply(400, [ErrorBody("token error")])
    ensures req.Ok? && user.Ok? && token.Ok? ==>
      AuthOutcome(req, user, token).body == [TokenBody(token.value.0, token.value.1)]
    ensures IssuedToken(if user.Ok? then user.value else 0) in AuthEvents(req, user, token) <==> req.Ok? && user.Ok?
  {
  }

  /** The middleware's refusal, or None when the request goes on to the wrapped handler. */
  function MiddleWareOutcome(tokenUser: Result<nat, string>, found: Option<string>): Option<Outcome> {
    if tokenUser.Err? then Some(Reply(Unauthorized, [ErrorBody(ErrJwt)]))
    else if found.Some? then Some(Reply(Unauthorized, [ErrorBody(ErrFindUser)]))
    else None
  }

  /** A request reaches the wrapped handler exactly when its token names a known user; otherwise 401. */
  lemma MiddleWareOutcomes(tokenUser: Result<nat, string>, found: Option<string>)
    ensures MiddleWareOutcome(tokenUser, found).None? <==> tokenUser.Ok? && found.None?
    ensures tokenUser.Err? ==> MiddleWareOutcome(tokenUser, found) == Some(Reply(401, [ErrorBody("token error")]))
    ensures tokenUser.Ok? && found.Some? ==>
      MiddleWareOutcome(tokenUser, found) == Some(Reply(401, [ErrorBody("user not found")]))
  {
  }

  /** The CRM answered with a body: neither a transport error nor JSON null. */
  predicate CrmAnswered(crm: Result<Option<ResponseGazCrm>, string>) {
    crm.Ok? && crm.value.Some?
  }

  /** The booking reaches the CRM: it decoded, validated and the procedure answered. */
  predicate BookingReachesCrm(req: Result<DataBooking, string>, mssql: Result<string, string>) {
    req.Ok? && BookingValidation.ValidateDataBooking(req.value) == map[] && mssql.Ok?
  }

  function BookingOutcome(req: Result<DataBooking, string>, mssql: Result<string, string>,
                          crm: Result<Option<ResponseGazCrm>, string>): Outcome
  {
    if req.Err? then Reply(BadRequest, [ErrorBody(req.error)])
    else if !BookingReachesCrm(req, mssql) then Reply(BadRequest, [ErrorBody(ErrMssql)])
    else BookingCrmOutcome(mssql.value, crm)
  }

  /** The answer to a booking the procedure answered with `resp`, once the CRM has been called. */
  function BookingCrmOutcome(resp: string, crm: Result<Option<ResponseGazCrm>, string>): Outcome {
    if crm.Err? || crm.value.None? then Crash
    else if crm.value.value.status != "OK" then
      Reply(BadRequest, [BookingBody(StatusMs(resp), resp, "Error", crm.value.value.message)])
    else Reply(StatusOK, [BookingBody(StatusMs(resp), resp, "Ok", AckBooking)])
  }

  function BookingEvents(req: Result<DataBooking, string>, mssql: Result<string, string>,
                         crm: Result<Option<ResponseGazCrm>, string>): seq<Event>
  {
    if req.Err? || BookingValidation.ValidateDataBooking(req.value) != map[] then [Wrote(BadRequest)]
    else if mssql.Err? then [CalledMssql, Wrote(BadRequest)]
    else [CalledMssql] + BookingCrmEvents(crm)
  }

  /** The status code the booking handler writes for a CRM answer `g`. */
  function CrmCode(g: ResponseGazCrm): int {
    if g.status != "OK" then BadRequest else StatusOK
  }

  function BookingCrmEvents(crm: Result<Option<ResponseGazCrm>, string>): seq<Event> {
    if crm.Err? || crm.value.None? then [PostedCrm, Crashed]
    else [PostedCrm, Wrote(CrmCode(crm.value.value)), InsertedPg("booking")]
  }

  /**
   * A booking that fails to decode, fails validation or is refused by the
   * procedure gets 400, and neither the CRM nor Postgres is called.
   */
  lemma BookingEarlyRejection(req: Result<DataBooking, string>, mssql: Result<string, string>,
                              crm: Result<Option<ResponseGazCrm>, string>)
    requires !BookingReachesCrm(req, mssql)
    ensures BookingOutcome(req, mssql, crm).Reply? && BookingOutcome(req, mssql, crm).code == 400
    ensures req.Ok? ==> BookingOutcome(req, mssql, crm).body == [ErrorBody("mssql error")]
    ensures PostedCrm !in BookingEvents(req, mssql, crm)
    ensures forall t :: InsertedPg(t) !in BookingEvents(req, mssql, crm)
  {
  }

  /**
   * Once the CRM answers, the code is 200 exactly when the CRM status is
   * "OK" (a 400 carries the CRM's message), the legacy status is "Ok"
   * exactly when the procedure reported success, and the procedure's answer
   * never changes the code.
   */
  lemma BookingCodeFollowsCrm(d: DataBooking, resp: string, other: string, g: ResponseGazCrm)
    requires BookingValidation.ValidateDataBooking(d) == map[]
    ensures BookingOutcome(Ok(d), Ok(resp), Ok(Some(g))).Reply?
    ensures BookingOutcome(Ok(d), Ok(resp), Ok(Some(g))).code == 200 <==> g.status == "OK"
    ensures BookingOutcome(Ok(d), Ok(resp), Ok(Some(g))).code ==
            BookingOutcome(Ok(d), Ok(other), Ok(Some(g))).code
    ensures BookingOutcome(Ok(d), Ok(resp), Ok(Some(g))).body[0].statusMs == "Ok" <==> resp == MssqlSuccess
    ensures BookingOutcome(Ok(d), Ok(resp), Ok(Some(g))).body[0].responseMs == resp
    ensures g.status != "OK" ==> BookingOutcome(Ok(d), Ok(resp), Ok(Some(g))).body[0].responseGazCrm == g.message
  {
  }

  /** With no CRM answer (a transport error or a null body) the handler crashes and writes nothing. */
  lemma BookingCrashIff(req: Result<DataBooking, string>, mssql: Result<string, string>,
                        crm: Result<Option<ResponseGazCrm>, string>)
    ensures BookingOutcome(req, mssql, crm).Crash? <==>
      BookingReachesCrm(req, mssql) && (crm.Err? || crm.value.None?)
  {
  }

  /**
   * The Postgres insert is attempted at most once, and only as the last step,
   * right after the response was written; it happens exactly when the CRM
   * answered.
   */
  lemma BookingPostgresLast(req: Result<DataBooking, string>, mssql: Result<string, string>,
                            crm: Result<Option<ResponseGazCrm>, string>)
    ensures var e := BookingEvents(req, mssql, crm);
      (InsertedPg("booking") in e <==> BookingReachesCrm(req, mssql) && CrmAnswered(crm)) &&
      (InsertedPg("booking") in e ==>
        |e| >= 2 && e[|e| - 1] == InsertedPg("booking") &&
        e[|e| - 2] == Wrote(BookingOutcome(req, mssql, crm).code) &&
        forall i :: 0 <= i < |e| - 1 ==> !e[i].InsertedPg?)
  {
  }

  function FormOutcome(req: Result<DataForms, string>, crm: Result<Option<ResponseGazCrm>, string>): Outcome {
    if req.Err? then Reply(BadRequest, [ErrorBody(req.error)])
    else if crm.Err? || crm.value.None? then Crash
    else if crm.value.value.status != "OK" then Reply(BadRequest, [ResponseBody("Error", crm.value.value.message)])
    else Reply(StatusOK, [ResponseBody("Ok", AckForm)])
  }

  function FormEvents(req: Result<DataForms, string>, crm: Result<Option<ResponseGazCrm>, string>): seq<Event> {
    var o := FormOutcome(req, crm);
    if req.Err? then [Wrote(o.code)]
    else if o.Crash? then [PostedCrm, Crashed]
    else [PostedCrm, Wrote(o.code), InsertedPg("forms")]
  }

  /**
   * A form is not validated before it is forwarded. A decoded form gets 200
   * exactly when the CRM status is "OK", else 400 with the CRM's message; no
   * CRM answer means a crash; the Postgres insert comes last, after the
   * response, exactly when the CRM answered.
   */
  lemma FormOutcomes(req: Result<DataForms, string>, crm: Result<Option<ResponseGazCrm>, string>)
    ensures req.Err? ==>
      FormOutcome(req, crm) == Reply(400, [ErrorBody(req.error)]) && FormEvents(req, crm) == [Wrote(400)]
    ensures req.Ok? && crm.Ok? && crm.value.Some? ==>
      FormOutcome(req, crm).Reply? &&
      (FormOutcome(req, crm).code == 200 <==> crm.value.value.status == "OK") &&
      (crm.value.value.status != "OK" ==> FormOutcome(req, crm).body == [ResponseBody("Error", crm.value.value.message)])
    ensures FormOutcome(req, crm).Crash? <==> req.Ok? && (crm.Err? || crm.value.None?)
    ensures var e := FormEvents(req, crm);
      (InsertedPg("forms") in e <==> req.Ok? && crm.Ok? && crm.value.Some?) &&
      (InsertedPg("forms") in e ==> e == [PostedCrm, Wrote(FormOutcome(req, crm).code), InsertedPg("forms")])
  {
  }

  /** What a CRM callback answers, given its decoding error and its insert error. */
  function CallbackOutcome(decodeErr: Option<string>, insertErr: Option<DbError>, ack: string): Outcome {
    if decodeErr.Some? then Reply(BadRequest, [ErrorBody(decodeErr.value)])
    else if insertErr.Some? then
      Reply(BadRequest, [ErrorBody(DbErrorText(insertErr.value)), ResponseBody("Error", ErrPostgres)])
    else Reply(StatusOK, [ResponseBody("Ok", ack)])
  }

  /**
   * A callback that does not decode gets 400; one whose insert fails gets
   * 400 ending with ("Error", "error postgres storing"); otherwise 200 with
   * the acknowledgement.
   */
  lemma CallbackOutcomes(decodeErr: Option<string>, insertErr: Option<DbError>, ack: string)
    ensures CallbackOutcome(decodeErr, insertErr, ack).code == 200 <==> decodeErr.None? && insertErr.None?
    ensures decodeErr.None? && insertErr.Some? ==>
      CallbackOutcome(decodeErr, insertErr, ack).code == 400 &&
      CallbackOutcome(decodeErr, insertErr, ack).body[|CallbackOutcome(decodeErr, insertErr, ack).body| - 1] ==
        ResponseBody("Error", "error postgres storing")
    ensures decodeErr.None? && insertErr.None? ==>
      CallbackOutcome(decodeErr, insertErr, ack).body == [ResponseBody("Ok", ack)]
  {
  }

  /** A callback is stored exactly when it decodes and its transaction goes through. */
  lemma CallbackStored(l: DataLeadGet, f: TxFaults)
    ensures CallbackOutcome(None, TxResult(LeadGetInsert, LeadGetRow(l), f), AckLeadGet).code == 200 <==>
      f.begin.None? && f.exec.None? && f.commit.None?
  {
    TxSucceedsIff(LeadGetInsert, LeadGetRow(l), f);
  }

  /** Regrouping an event trace built in steps. */
  lemma AppendAssoc<T>(a: seq<T>, b: seq<T>, c: seq<T>)
    ensures a + b + c == a + (b + c)
  {
  }

  function DecodeError<T>(r: Result<T, string>): Option<string> {
    if r.Err? then Some(r.error) else None
  }

  // ---------------------------------------------------------------------
  // The handlers

  class ApiServer {
    const store: Store
    const crm: CrmEndpoint
    /** The legacy status of the last booking, shared by every booking request. */
    var errMs: string
    ghost var events: seq<Event>

    constructor(store: Store, crm: CrmEndpoint)
      ensures this.store == store && this.crm == crm
      ensures errMs == "" && events == []
    {
      this.store := store;
      this.crm := crm;
      errMs := "";
      events := [];
    }

    method Respond(w: ResponseWriter, code: int, data: Json)
      modifies this, w
      ensures w.code == if old(w.code).None? then Some(code) else old(w.code)
      ensures w.body == old(w.body) + [data]
      ensures events == old(events) + [Wrote(code)]
      ensures errMs == old(errMs)
    {
      w.WriteHeader(code);
      w.Encode(data);
      events := events + [Wrote(code)];
    }

    method Error(w: ResponseWriter, code: int, message: string)
      modifies this, w
      ensures w.code == if old(w.code).None? then Some(code) else old(w.code)
      ensures w.body == old(w.body) + [ErrorBody(message)]
      ensures events == old(events) + [Wrote(code)]
      ensures errMs == old(errMs)
    {
      Respond(w, code, ErrorBody(message));
    }

    /** POST /authentication. */
    method HandleAuth(w: ResponseWriter, req: Result<Credentials, string>, user: Result<nat, string>,
                      token: Result<(string, int), string>)
      requires store.Valid()
      requires w.code == None && w.body == []
      modifies this, w, store
      ensures store.Valid()
      ensures w.Shows(AuthOutcome(req, user, token))
      ensures events == old(events) + AuthEvents(req, user, token)
      ensures errMs == old(errMs)
    {
      if req.Err? {
        Error(w, BadRequest, ErrRegistration);
        return;
      }
      var users := store.User();
      events := events + [LookedUpUser(req.value.email)];
      if user.Err? {
        Error(w, Unauthorized, ErrIncorrectAuth);
        return;
      }
      users := store.User();
      events := events + [IssuedToken(user.value)];
      if token.Err? {
        Error(w, BadRequest, ErrJwt);
        return;
      }
      Respond(w, StatusOK, TokenBody(token.value.0, token.value.1));
    }

    /**
     * The token check in front of every /auth route. It answers 401 itself,
     * or returns `next` for the wrapped handler to run, recording that once.
     */
    method MiddleWare(w: ResponseWriter, tokenUser: Result<nat, string>, found: Option<string>)
      returns (next: bool)
      requires store.Valid()
      requires w.code == None && w.body == []
      modifies this, w, store
      ensures store.Valid()
      ensures next <==> MiddleWareOutcome(tokenUser, found).None?
      ensures next ==> (w.code == None && w.body == [] &&
        events == old(events) + [CheckedToken, LookedUpUserId(tokenUser.value), PassedToHandler])
      ensures !next ==> (w.Shows(MiddleWareOutcome(tokenUser, found).value) &&
        events == old(events) + (if tokenUser.Err? then [CheckedToken] else [CheckedToken, LookedUpUserId(tokenUser.value)]) +
          [Wrote(Unauthorized)])
      ensures errMs == old(errMs)
    {
      var users := store.User();
      events := events + [CheckedToken];
      if tokenUser.Err? {
        Error(w, Unauthorized, ErrJwt);
        return false;
      }
      users := store.User();
      events := events + [LookedUpUserId(tokenUser.value)];
      if found.Some? {
        Error(w, Unauthorized, ErrFindUser);
        return false;
      }
      events := events + [PassedToHandler];
      return true;
    }
    /** POST /auth/requestbooking, after the middleware. */
    method HandleRequestBooking(w: ResponseWriter, req: Result<DataBooking, string>, mssql: Result<string, string>,
                                crmReply: Result<Option<ResponseGazCrm>, string>, pg: TxFaults)
      requires store.Valid()
      requires w.code == None && w.body == []
      modifies this, w, store, store.dbMssql, store.dbPostgres, crm
      ensures store.Valid()
      ensures w.Shows(BookingOutcome(req, mssql, crmReply))
      ensures events == old(events) + BookingEvents(req, mssql, crmReply)
      ensures errMs == if BookingReachesCrm(req, mssql) then StatusMs(mssql.value) else old(errMs)
      ensures store.dbMssql.calls ==
        if req.Ok? && BookingValidation.ValidateDataBooking(req.value) == map[]
        then old(store.dbMssql.calls) + [(store.config.bookingProc, MssqlParams(req.value))]
        else old(store.dbMssql.calls)
      ensures crm.posted ==
        if BookingReachesCrm(req, mssql) then old(crm.posted) + [CrmPayloadBooking(req.value)] else old(crm.posted)
      ensures store.dbPostgres.trace ==
        if BookingReachesCrm(req, mssql) && CrmAnswered(crmReply)
        then old(store.dbPostgres.trace) + TxTrace(BookingInsertAsWritten, BookingRow(req.value), pg)
        else old(store.dbPostgres.trace)
      ensures store.dbPostgres.rows == old(store.dbPostgres.rows)
    {
      if req.Err? {
        Error(w, BadRequest, req.error);
        return;
      }
      ghost var e0 := events;
      var resp, err := CallBookingProc(req.value, mssql);
      if err.Some? {
        Error(w, BadRequest, ErrMssql);
        return;
      }
      ghost var e1 := events;
      assert e1 == e0 + [CalledMssql];
      ForwardBooking(w, req.value, resp, crmReply, pg);
      AppendAssoc(e0, [CalledMssql], BookingCrmEvents(crmReply));
    }

    /** The booking handler's call of the booking procedure, through the data repository. */
    method CallBookingProc(d: DataBooking, mssql: Result<string, string>) returns (resp: string, err: Option<RepoError>)
      requires store.Valid()
      modifies this, store, store.dbMssql
      ensures store.Valid()
      ensures err.None? <==> BookingReachesCrm(Ok(d), mssql)
      ensures err.None? ==> resp == mssql.value
      ensures events == old(events) + if BookingValidation.ValidateDataBooking(d) == map[] then [CalledMssql] else []
      ensures errMs == old(errMs)
      ensures store.dbMssql.calls ==
        if BookingValidation.ValidateDataBooking(d) == map[]
        then old(store.dbMssql.calls) + [(store.config.bookingProc, MssqlParams(d))]
        else old(store.dbMssql.calls)
    {
      var data := store.Data();
      resp, err := data.QueryInsertMssql(d, mssql);
      if err.None? || !err.value.Invalid? {
        events := events + [CalledMssql];
      }
    }

    /** The part of the booking handler after the procedure answered `resp`. */
    method ForwardBooking(w: ResponseWriter, d: DataBooking, resp: string,
                          crmReply: Result<Option<ResponseGazCrm>, string>, pg: TxFaults)
      requires store.Valid()
      requires w.code == None && w.body == []
      modifies this, w, store, store.dbPostgres, crm
      ensures store.Valid()
      ensures w.Shows(BookingCrmOutcome(resp, crmReply))
      ensures events == old(events) + BookingCrmEvents(crmReply)
      ensures errMs == StatusMs(resp)
      ensures crm.posted == old(crm.posted) + [CrmPayloadBooking(d)]
      ensures store.dbPostgres.trace ==
        if CrmAnswered(crmReply)
        then old(store.dbPostgres.trace) + TxTrace(BookingInsertAsWritten, BookingRow(d), pg)
        else old(store.dbPostgres.trace)
      ensures store.dbPostgres.rows == old(store.dbPostgres.rows)
    {
      if resp != MssqlSuccess {
        errMs := "Error";
      } else {
        errMs := "Ok";
      }
      var respg := PostBooking(d, crmReply);
      if respg.Err? || respg.value.None? {
        events := events + [Crashed];
        return;
      }
      AnswerBooking(w, resp, respg.value.value);
      StoreBooking(d, pg);
    }

    /** The booking handler's response once the CRM answered `g`. */
    method AnswerBooking(w: ResponseWriter, resp: string, g: ResponseGazCrm)
      requires w.code == None && w.body == []
      requires errMs == StatusMs(resp)
      modifies this, w
      ensures w.Shows(BookingCrmOutcome(resp, Ok(Some(g))))
      ensures events == old(events) + [Wrote(CrmCode(g))]
      ensures errMs == old(errMs)
    {
      if g.status != "OK" {
        Respond(w, BadRequest, BookingBody(errMs, resp, "Error", g.message));
      } else {
        Respond(w, StatusOK, BookingBody(errMs, resp, "Ok", AckBooking));
      }
    }

    /** The booking handler's CRM call. */
    method PostBooking(d: DataBooking, crmReply: Result<Option<ResponseGazCrm>, string>)
      returns (respg: Result<Option<ResponseGazCrm>, string>)
      requires store.Valid()
      modifies this, store, crm
      ensures store.Valid()
      ensures respg == crmReply
      ensures events == old(events) + [PostedCrm]
      ensures errMs == old(errMs)
      ensures crm.posted == old(crm.posted) + [CrmPayloadBooking(d)]
    {
      var data := store.Data();
      respg := data.RequestGazCrmApiBooking(d, crm, crmReply);
      events := events + [PostedCrm];
    }

    /**
     * The booking handler's last step: the Postgres insert, whose error is
     * only logged. The statement as written never commits, so no row is stored.
     */
    method StoreBooking(d: DataBooking, pg: TxFaults)
      requires store.Valid()
      modifies this, store, store.dbPostgres
      ensures store.Valid()
      ensures events == old(events) + [InsertedPg("booking")]
      ensures errMs == old(errMs)
      ensures store.dbPostgres.trace ==
        old(store.dbPostgres.trace) + TxTrace(BookingInsertAsWritten, BookingRow(d), pg)
      ensures store.dbPostgres.rows == old(store.dbPostgres.rows)
    {
      var data := store.Data();
      var pgErr := data.QueryInsertBookingPostgres(d, pg);
      events := events + [InsertedPg("booking")];
    }

    /** POST /auth/requestform, after the middleware. */
    method HandleRequestForm(w: ResponseWriter, req: Result<DataForms, string>,
                             crmReply: Result<Option<ResponseGazCrm>, string>, pg: TxFaults)
      requires store.Valid()
      requires w.code == None && w.body == []
      modifies this, w, store, store.dbPostgres, crm
      ensures store.Valid()
      ensures w.Shows(FormOutcome(req, crmReply))
      ensures events == old(events) + FormEvents(req, crmReply)
      ensures errMs == old(errMs)
      ensures crm.posted == if req.Ok? then old(crm.posted) + [CrmPayloadForms(req.value)] else old(crm.posted)
      ensures InsertedPg("forms") in FormEvents(req, crmReply) ==>
        store.dbPostgres.trace == old(store.dbPostgres.trace) + TxTrace(FormsInsert, FormsRow(req.value), pg) &&
        store.dbPostgres.rows ==
          if TxResult(FormsInsert, FormsRow(req.value), pg).None?
          then old(store.dbPostgres.rows) + [Row("forms", FormsRow(req.value))]
          else old(store.dbPostgres.rows)
      ensures InsertedPg("forms") !in FormEvents(req, crmReply) ==>
        store.dbPostgres.trace == old(store.dbPostgres.trace) && store.dbPostgres.rows == old(store.dbPostgres.rows)
    {
      if req.Err? {
        Error(w, BadRequest, req.error);
        return;
      }
      var data := store.Data();
      var respg := data.RequestGazCrmApiForms(req.value, crm, crmReply);
      events := events + [PostedCrm];
      if respg.Err? || respg.value.None? {
        events := events + [Crashed];
        return;
      }
      var g := respg.value.value;
      if g.status != "OK" {
        Respond(w, BadRequest, ResponseBody("Error", g.message));
      } else {
        Respond(w, StatusOK, ResponseBody("Ok", AckForm));
      }
      data := store.Data();
      var pgErr := data.QueryInsertFormsPostgres(req.value, pg);
      events := events + [InsertedPg("forms")];
    }

    /** The answer of a callback handler once its insert has run. */
    method AnswerCallback(w: ResponseWriter, err: Option<DbError>, ack: string)
      requires w.code == None && w.body == []
      modifies this, w
      ensures w.Shows(CallbackOutcome(None, err, ack))
      ensures events == old(events) + if err.Some? then [Wrote(BadRequest), Wrote(BadRequest)] else [Wrote(StatusOK)]
      ensures errMs == old(errMs)
    {
      if err.Some? {
        Error(w, BadRequest, DbErrorText(err.value));
        Respond(w, BadRequest, ResponseBody("Error", ErrPostgres));
      } else {
        Respond(w, StatusOK, ResponseBody("Ok", ack));
      }
    }

    /** POST /auth/requestleadget, after the middleware. */
    method HandleRequestLeadGetGazCrm(w: ResponseWriter, req: Result<DataLeadGet, string>, pg: TxFaults)
      requires store.Valid()
      requires w.code == None && w.body == []
      modifies this, w, store, store.dbPostgres
      ensures store.Valid()
      ensures w.Shows(CallbackOutcome(DecodeError(req),
        if req.Ok? then TxResult(LeadGetInsert, LeadGetRow(req.value), pg) else None, AckLeadGet))
      ensures req.Err? ==> (events == old(events) + [Wrote(BadRequest)] &&
        store.dbPostgres.trace == old(store.dbPostgres.trace) && store.dbPostgres.rows == old(store.dbPostgres.rows))
      ensures req.Ok? ==>
        events == old(events) + [InsertedPg("gazcrm_lead_get")] +
          (if TxResult(LeadGetInsert, LeadGetRow(req.value), pg).Some? then [Wrote(BadRequest), Wrote(BadRequest)] else [Wrote(StatusOK)]) &&
        store.dbPostgres.trace == old(store.dbPostgres.trace) + TxTrace(LeadGetInsert, LeadGetRow(req.value), pg) &&
        store.dbPostgres.rows ==
          if TxResult(LeadGetInsert, LeadGetRow(req.value), pg).None?
          then old(store.dbPostgres.rows) + [Row("gazcrm_lead_get", LeadGetRow(req.value))]
          else old(store.dbPostgres.rows)
      ensures errMs == old(errMs)
    {
      if req.Err? {
        Error(w, BadRequest, req.error);
        return;
      }
      var data := store.Data();
      var err := data.QueryInsertLeadGetPostgres(req.value, pg);
      events := events + [InsertedPg("gazcrm_lead_get")];
      AnswerCallback(w, err, AckLeadGet);
    }

    /** POST /auth/requestworklist, after the middleware. */
    method HandleRequestWorkListGazCrm(w: ResponseWriter, req: Result<DataWorkList, string>, pg: TxFaults)
      requires store.Valid()
      requires w.code == None && w.body == []
      modifies this, w, store, store.dbPostgres
      ensures store.Valid()
      ensures w.Shows(CallbackOutcome(DecodeError(req),
        if req.Ok? then TxResult(WorkListInsert, WorkListRow(req.value), pg) else None, AckWorkList))
      ensures req.Err? ==> (events == old(events) + [Wrote(BadRequest)] &&
        store.dbPostgres.trace == old(store.dbPostgres.trace) && store.dbPostgres.rows == old(store.dbPostgres.rows))
      ensures req.Ok? ==>
        events == old(events) + [InsertedPg("gazcrm_work_list")] +
          (if TxResult(WorkListInsert, WorkListRow(req.value), pg).Some? then [Wrote(BadRequest), Wrote(BadRequest)] else [Wrote(StatusOK)]) &&
        store.dbPostgres.trace == old(store.dbPostgres.trace) + TxTrace(WorkListInsert, WorkListRow(req.value), pg) &&
        store.dbPostgres.rows ==
          if TxResult(WorkListInsert, WorkListRow(req.value), pg).None?
          then old(store.dbPostgres.rows) + [Row("gazcrm_work_list", WorkListRow(req.value))]
          else old(store.dbPostgres.rows)
      ensures errMs == old(errMs)
    {
      if req.Err? {
        Error(w, BadRequest, req.error);
        return;
      }
      var data := store.Data();
      var err := data.QueryInsertWorkListsPostgres(req.value, pg);
      events := events + [InsertedPg("gazcrm_work_list")];
      AnswerCallback(w, err, AckWorkList);
    }

    /** POST /auth/requeststatus, after the middleware. */
    method HandleRequestStatusGazCrm(w: ResponseWriter, req: Result<DataStatuses, string>, pg: TxFaults)
      requires store.Valid()
      requires w.code == None && w.body == []
      modifies this, w, store, store.dbPostgres
      ensures store.Valid()
      ensures w.Shows(CallbackOutcome(DecodeError(req),
        if req.Ok? then TxResult(StatusesInsert, StatusesRow(req.value), pg) else None, AckStatuses))
      ensures req.Err? ==> (events == old(events) + [Wrote(BadRequest)] &&
        store.dbPostgres.trace == old(store.dbPostgres.trace) && store.dbPostgres.rows == old(store.dbPostgres.rows))
      ensures req.Ok? ==>
        events == old(events) + [InsertedPg("gazcrm_statuses")] +
          (if TxResult(StatusesInsert, StatusesRow(req.value), pg).Some? then [Wrote(BadRequest), Wrote(BadRequest)] else [Wrote(StatusOK)]) &&
        store.dbPostgres.trace == old(store.dbPostgres.trace) + TxTrace(StatusesInsert, StatusesRow(req.value), pg) &&
        store.dbPostgres.rows ==
          if TxResult(StatusesInsert, StatusesRow(req.value), pg).None?
          then old(store.dbPostgres.rows) + [Row("gazcrm_statuses", StatusesRow(req.value))]
          else old(store.dbPostgres.rows)
      ensures errMs == old(errMs)
    {
      if req.Err? {
        Error(w, BadRequest, req.error);
        return;
      }
      var data := store.Data();
      var err := data.QueryInsertStatusesPostgres(req.value, pg);
      events := events + [InsertedPg("gazcrm_statuses")];
      AnswerCallback(w, err, AckStatuses);
    }

    /**
     * The /auth/requestbooking route: the middleware, then the booking
     * handler when it lets the request through. A refused request reaches
     * no database and not the CRM.
     */
    method ServeRequestBooking(w: ResponseWriter, tokenUser: Result<nat, string>, found: Option<string>,
                               req: Result<DataBooking, string>, mssql: Result<string, string>,
                               crmReply: Result<Option<ResponseGazCrm>, string>, pg: TxFaults)
      requires store.Valid()
      requires w.code == None && w.body == []
      modifies this, w, store, store.dbMssql, store.dbPostgres, crm
      ensures store.Valid()
      ensures store.dbPostgres.rows == old(store.dbPostgres.rows)
      ensures MiddleWareOutcome(tokenUser, found).Some? ==>
        w.Shows(MiddleWareOutcome(tokenUser, found).value) &&
        events == old(events) + (if tokenUser.Err? then [CheckedToken] else [CheckedToken, LookedUpUserId(tokenUser.value)]) +
          [Wrote(Unauthorized)] &&
        store.dbMssql.calls == old(store.dbMssql.calls) && crm.posted == old(crm.posted) &&
        store.dbPostgres.trace == old(store.dbPostgres.trace) && errMs == old(errMs)
      ensures MiddleWareOutcome(tokenUser, found).None? ==>
        w.Shows(BookingOutcome(req, mssql, crmReply)) &&
        events == old(events) + [CheckedToken, LookedUpUserId(tokenUser.value), PassedToHandler] +
          BookingEvents(req, mssql, crmReply) &&
        errMs == (if BookingReachesCrm(req, mssql) then StatusMs(mssql.value) else old(errMs)) &&
        store.dbMssql.calls ==
          (if req.Ok? && BookingValidation.ValidateDataBooking(req.value) == map[]
           then old(store.dbMssql.calls) + [(store.config.bookingProc, MssqlParams(req.value))]
           else old(store.dbMssql.calls)) &&
        crm.posted ==
          (if BookingReachesCrm(req, mssql) then old(crm.posted) + [CrmPayloadBooking(req.value)] else old(crm.posted)) &&
        store.dbPostgres.trace ==
          (if BookingReachesCrm(req, mssql) && CrmAnswered(crmReply)
           then old(store.dbPostgres.trace) + TxTrace(BookingInsertAsWritten, BookingRow(req.value), pg)
           else old(store.dbPostgres.trace))
    {
      var next := MiddleWare(w, tokenUser, found);
      if next {
        HandleRequestBooking(w, req, mssql, crmReply, pg);
      }
    }
  }
}
