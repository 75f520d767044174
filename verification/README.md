# Booking and form gateway — a Dafny model

The service is an HTTP gateway for vehicle-order submissions. A caller first
logs in at `/authentication` and gets a bearer token. Every `/auth/...` route
sits behind a middleware that checks the token and the user it names. Then:

- A **booking** is decoded and validated. It is then passed to an MSSQL stored
  procedure, the legacy order system of record. After that it is posted to the
  external CRM. The caller gets a composite answer: the legacy status and the
  CRM status. Last, the booking is stored in a Postgres analytics table.
- A **form** is decoded and posted to the CRM. The caller gets the CRM status.
  Last, the form is stored in Postgres.
- Three **CRM callbacks** (lead_get, work_list, statuses) are decoded and
  stored in Postgres.
- The **store** holds the two database handles and the configuration. It
  creates its user and data repositories on first use and hands out the same
  ones afterwards.

The model keeps the decision logic of these pieces and proves what they promise.
The outside world is represented by arguments: the decoded request body, the
token and credential checks, the MSSQL reply, the CRM reply, and each Postgres
step's answer. The database and CRM objects record the calls made to them. Each
handler writes into a response writer and appends to a ghost event trace.
Functions of the same arguments say what the answer and the trace must be.

Files:

- `wrappers.dfy`: Option and Result.
- `gotime.dfy`: Go's `time.Parse` for the two layouts the validators use.
- `validation.dfy`: the part of ozzo-validation in use. This covers `Required`,
  `In` and `Date`, per-field first failure, and the struct error map.
- `model.dfy`: the request and callback records, the booking and form rule
  lists, and the `NullString` SQL adapter.
- `booking_validation.dfy` and `forms_validation.dfy`: the two validators, with
  the error map characterised key by key.
- `crm_request.dfy`: the 21-entry CRM request built for a booking or a form.
- `sinks.dfy`: the Postgres pool, the MSSQL database and the CRM endpoint, as
  seen by the service.
- `sql_statements.dfy`: the INSERT argument rows and the stored-procedure
  parameters.
- `store.dfy`: the store with its memoised repositories, and the data
  repository's write operations.
- `server.dfy`: the handlers. `newResponse` and `newResponseBooking` are the
  `ResponseBody` and `BookingBody` documents.

The model follows the code as written, including these behaviours a reader
might not expect:

- the booking's HTTP code depends only on the CRM status, so a legacy "Error"
  with a CRM "OK" is answered with 200;
- a CRM transport error, or a JSON `null` reply, dereferences a nil pointer,
  which the model calls a crash;
- a validation failure reaches the caller as 400 "mssql error", because it
  comes back through the MSSQL call;
- forms are never validated;
- the repository caches are filled without synchronisation;
- the booking's Postgres INSERT binds more values than it has placeholders, so
  it is always refused and no booking row is ever stored (see Findings).

## Model

| member | source | states |
|---|---|---|
| Validation.FirstFailure | app/apiserver/model/data.go:104 | No error exactly when every rule of the field passes; otherwise the error is the first rule, in order, that rejects the value |
| Validation.ValidateStruct | app/apiserver/model/data.go:67-105 | A key is in the error map exactly when some entry for that key fails one of its rules |
| Validation.LastFailureWins | app/apiserver/model/data.go:67-105 | A key named by several entries reports the first failing rule of its last failing entry |
| Validation.LastRepeatIsRedundant | app/apiserver/model/data.go:102-103 | A last entry that repeats an earlier one for the same key, with none in between, leaves the error map unchanged |
| Validation.RepeatedFieldIsRedundant | app/apiserver/model/data.go:89-103 | Taking out any entry that repeats an earlier one, with no entry for that key in between, leaves the error map unchanged |
| GoTime.ParseFormatDate | app/apiserver/model/data.go:90 | Every valid date written as YYYY-MM-DD is accepted and read back unchanged |
| GoTime.ParseDateCanonical | app/apiserver/model/data.go:90 | An accepted date is valid, and it is the canonical YYYY-MM-DD text of that date |
| GoTime.ParseFormatDateTime | app/apiserver/model/data.go:95 | Every valid timestamp written as YYYY-MM-DDTHH:MM:SS is accepted and read back unchanged |
| GoTime.ParseDateTimeValid | app/apiserver/model/data.go:95 | An accepted timestamp names an existing day and a clock time below 24:00:00 |
| GoTime.OneDigitHourAccepted | app/apiserver/model/data.go:103 | A one-digit hour is accepted by the "15" hour chunk |
| GoTime.FractionAccepted | app/apiserver/model/data.go:103 | A '.' and any run of digits after the seconds is accepted and does not change the time read |
| GoTime.DigitRunToEnd | app/apiserver/model/data.go:103 | A run of digits that reaches the end of the text is read to the end |
| Model.NullValue | app/apiserver/model/data.go:124-129 | The driver value is NULL exactly for the empty text, and otherwise the text itself |
| Model.NullString.Scan | app/apiserver/model/data.go:111-122 | Scanning never fails. NULL stores "nil", a string is stored verbatim, and any other value leaves the text as it was |
| Model.NullString.Value | app/apiserver/model/data.go:124-129 | The adapter's driver value is NULL exactly when its text is empty, and otherwise the text |
| Model.ScanValueRoundTrip | app/apiserver/model/data.go:111-129 | Scanning a non-empty string and then writing it back gives the same string |
| Model.ScanNilReadsNil | app/apiserver/model/data.go:112-115 | SQL NULL comes back as the string "nil", not as NULL |
| Model.ScanEmptyWritesNull | app/apiserver/model/data.go:111-129 | An empty string scans to empty text, which is written back as NULL |
| Model.ScanIgnoresNonStrings | app/apiserver/model/data.go:116-119 | A value that is neither NULL nor a string leaves the text unchanged |
| Model.ValueScanRoundTrip | app/apiserver/model/data.go:111-129 | Writing a text and scanning the result back restores it, except that "" comes back as "nil" |
| BookingValidation.BookingEntriesAgree | app/apiserver/model/data.go:69-104 | Each of the 35 rule entries fails exactly when its field breaks the key's field-by-field demand |
| BookingValidation.BookingKeysCovered | app/apiserver/model/data.go:69-104 | Every key that carries a demand is named by at least one rule entry |
| BookingValidation.BookingErrorKeys | app/apiserver/model/data.go:66-106 | A key is in a booking's error map exactly when its field breaks its demand. The demands are: required texts non-empty and required numbers non-zero; client_type, agreement_mailing, division, area and metrics_type empty or one of their listed values; date_of_birth empty or parsable as 2006-01-02; event_datetime empty or parsable as 2006-01-02T15:04:05; action_type one of form, bill, acquiring |
| BookingValidation.BookingValidIff | app/apiserver/model/data.go:66-106 | A booking validates exactly when every key meets its demand: required fields non-empty or non-zero, listed fields empty or listed, dates parsable |
| BookingValidation.BookingZeroNumbersRejected | app/apiserver/model/data.go:70-78 | uniq_mod_code and price are rejected exactly when they are 0 |
| BookingValidation.BookingActionTypeRule | app/apiserver/model/data.go:104 | action_type passes exactly when it is form, bill or acquiring, so empty fails |
| BookingValidation.BookingRepeatsRedundant | app/apiserver/model/data.go:89-103 | Dropping the repeated patronymic, client_type and event_datetime entries gives the same error map for every booking |
| FormsValidation.FormsEntriesAgree | app/apiserver/model/data.go:333-361 | Each form rule entry other than the two metrics_type ones fails exactly when its field breaks its demand |
| FormsValidation.FormsKeysCovered | app/apiserver/model/data.go:333-361 | Every key that carries a demand is named by at least one rule entry |
| FormsValidation.FormsMetricsTypeEntries | app/apiserver/model/data.go:342-357 | The first metrics_type entry fails exactly on empty; the second fails exactly on a non-empty value other than yandex |
| FormsValidation.FormsErrorSound | app/apiserver/model/data.go:330-363 | A key in a form's error map breaks its demand |
| FormsValidation.FailingEntryBreaksRule | app/apiserver/model/data.go:330-363 | A failing rule entry breaks the demand of its key |
| FormsValidation.FormsErrorComplete | app/apiserver/model/data.go:330-363 | A key that breaks its demand is in the error map |
| FormsValidation.FormsErrorKeys | app/apiserver/model/data.go:330-363 | A key is in a form's error map exactly when its field breaks its demand |
| FormsValidation.FormsValidIff | app/apiserver/model/data.go:330-363 | A form validates exactly when every key meets its demand |
| FormsValidation.FormValidOnlyIf | app/apiserver/model/data.go:342-360 | A valid form has action_type exactly "form" and metrics_type exactly "yandex" |
| CrmRequest.CrmTagsDistinct | app/apiserver/model/data.go:372-437 | The CRM request has 21 keys, pairwise distinct |
| CrmRequest.CrmPayloadKeys | app/apiserver/store/sqlstore/datarepository.go:762-935 | The booking and form requests both have 21 entries, with the same key sequence event_datetime … agreement_mailing |
| CrmRequest.BookingPayloadValues | app/apiserver/store/sqlstore/datarepository.go:762-828 | Entry i is keyed by the JSON tag of the field CrmKey(i), and each booking field is copied unchanged under its own key. client_name carries Name. The request's ClientID carries the booking's clientid_google value |
| CrmRequest.FormsPayloadValues | app/apiserver/store/sqlstore/datarepository.go:869-935 | Entry i is keyed by the JSON tag of the field CrmKey(i), and every form field is copied unchanged under that key, with client_name from Name and ClientID from Clientid |
| Sinks.DriverError | app/apiserver/store/sqlstore/datarepository.go:84-88 | A step reports an error exactly when the database answered with one |
| Sinks.ExecError | app/apiserver/store/sqlstore/datarepository.go:90-135 | Exec is refused with an argument-count error when the number of values differs from the number of placeholders; otherwise it fails exactly when the database fails it |
| Sinks.TxProtocol | app/apiserver/store/sqlstore/datarepository.go:84-143 | Every insert begins. A failed Begin means no Exec, and a failed Exec means no Commit. There is at most one Commit, and success means Begin, Exec and Commit were all made and the Commit succeeded |
| Sinks.TxSucceedsIff | app/apiserver/store/sqlstore/datarepository.go:84-143 | An insert succeeds exactly when the arguments fit the placeholders and no step fails |
| Sinks.PgPool.Begin | app/apiserver/store/sqlstore/datarepository.go:84-88 | Opening a transaction records Begin, stores nothing and clears any pending row |
| Sinks.PgPool.Exec | app/apiserver/store/sqlstore/datarepository.go:90-135 | Exec records the statement and its arguments, and leaves the row pending exactly when it succeeds |
| Sinks.PgPool.Commit | app/apiserver/store/sqlstore/datarepository.go:137-141 | Commit records itself and stores the pending row exactly when it succeeds |
| Sinks.MssqlDb.Exec | app/apiserver/store/sqlstore/datarepository.go:35-65 | One procedure call is recorded with its name and parameters, and the database's answer is returned |
| Sinks.CrmEndpoint.Post | app/apiserver/store/sqlstore/datarepository.go:841-858 | One POST of the payload is recorded, and the endpoint's answer is returned |
| SqlStatements.BookingRow | app/apiserver/store/sqlstore/datarepository.go:90-131 | The booking INSERT binds 40 values |
| SqlStatements.FormsRow | app/apiserver/store/sqlstore/datarepository.go:166-198 | The forms INSERT binds 31 values |
| SqlStatements.CallbackRowsRoundTrip | app/apiserver/store/sqlstore/datarepository.go:232-324 | Each callback row holds every field of its record once, in the fixed column order: reading the row back gives the record |
| SqlStatements.InsertArities | app/apiserver/store/sqlstore/datarepository.go:73-324 | The forms, lead_get, work_list and statuses INSERTs bind as many values as they have placeholders (31, 12, 4, 7); the booking INSERT binds 40 against 39 |
| SqlStatements.BookingInsertAsWrittenNeverCommits | app/apiserver/store/sqlstore/datarepository.go:73-131 | The booking INSERT as written always reports an error and never issues a Commit, whatever the database answers |
| SqlStatements.BookingInsertCommitsIff | app/apiserver/store/sqlstore/datarepository.go:84-143 | With one placeholder per value, the booking insert commits exactly when no database step fails |
| SqlStatements.MssqlParamsShape | app/apiserver/store/sqlstore/datarepository.go:35-61 | The procedure gets 26 parameters with distinct names, and exactly one of them, "Ошибка", is an output |
| SqlStatements.MssqlParamsValues | app/apiserver/store/sqlstore/datarepository.go:35-61 | Each of the 25 inputs is named as in the call and carries its booking field unchanged: RequestId, ActionType, UniqModCode, Vin, PriceWithNds, TypeClient, Inn, Kpp, Ogrn, YurAddressCode, DeliveryAddressCode, Hid, CompanyName, Surname, Name, DateOfBirth, Patronymic, PassportSer, PassportNumber, Snils, Email, PhoneNumber, TimeRequest, BillNumber and TestMod |
| SqlStore.Store.New | app/apiserver/store/sqlstore/store.go:21-27 | The store keeps both handles and the configuration, and neither repository exists yet |
| SqlStore.Store.User | app/apiserver/store/sqlstore/store.go:30-40 | Returns the cached user repository, or a new one bound to this store, now cached. Only the user cache changes |
| SqlStore.Store.Data | app/apiserver/store/sqlstore/store.go:43-53 | Returns the cached data repository, or a new one bound to this store, now cached. Only the data cache changes |
| SqlStore.RepositoriesAreMemoised | app/apiserver/store/sqlstore/store.go:30-53 | Repeated User and Data calls return the identical objects, which are the cached ones |
| SqlStore.DataRepository.QueryInsertMssql | app/apiserver/store/sqlstore/datarepository.go:24-68 | An invalid booking gets ("", its errors) and no procedure call. Otherwise one call is made: a failed call gives ("", its error), and a successful one gives exactly the output parameter |
| SqlStore.DataRepository.InsertInTransaction | app/apiserver/store/sqlstore/datarepository.go:84-143 | The result, the call trace and the stored rows are those of the Begin, Exec and Commit protocol |
| SqlStore.DataRepository.QueryInsertBookingPostgres | app/apiserver/store/sqlstore/datarepository.go:71-145 | Runs the statement as written (39 placeholders, 40 values): the error is Begin's, or else the argument-count refusal; no Commit is issued and no row is stored |
| SqlStore.DataRepository.QueryInsertFormsPostgres | app/apiserver/store/sqlstore/datarepository.go:148-212 | The forms row goes through the protocol, and is stored exactly when it succeeds |
| SqlStore.DataRepository.QueryInsertLeadGetPostgres | app/apiserver/store/sqlstore/datarepository.go:215-258 | The lead_get row goes through the protocol, and is stored exactly when it succeeds |
| SqlStore.DataRepository.QueryInsertWorkListsPostgres | app/apiserver/store/sqlstore/datarepository.go:261-296 | The work_list row goes through the protocol, and is stored exactly when it succeeds |
| SqlStore.DataRepository.QueryInsertStatusesPostgres | app/apiserver/store/sqlstore/datarepository.go:299-337 | The statuses row goes through the protocol, and is stored exactly when it succeeds |
| SqlStore.DataRepository.RequestGazCrmApiBooking | app/apiserver/store/sqlstore/datarepository.go:757-861 | Posts exactly the booking's CRM request once, and returns the CRM's answer |
| SqlStore.DataRepository.RequestGazCrmApiForms | app/apiserver/store/sqlstore/datarepository.go:864-963 | Posts exactly the form's CRM request once, and returns the CRM's answer |
| Server.StatusMs | app/apiserver/server.go:206-211 | The legacy status is "Ok" exactly when the procedure answered the success text, and "Error" otherwise |
| Server.AuthOutcomes | app/apiserver/server.go:127-157 | A decode failure gives 400, unknown credentials 401, and a token failure 400. Success gives 200 with the token and its expiry, and happens exactly when every step succeeds |
| Server.MiddleWareOutcomes | app/apiserver/server.go:160-181 | A token failure gives 401 "token error" and an unknown user 401 "user not found"; otherwise the request goes on |
| Server.BookingEarlyRejection | app/apiserver/server.go:192-204 | A booking that fails to decode, to validate or at the procedure gets 400, with "mssql error" once decoded, and neither the CRM nor Postgres is called |
| Server.BookingCodeFollowsCrm | app/apiserver/server.go:206-233 | Once the CRM answers, the code is 200 exactly when its status is "OK", and a 400 carries its message. The legacy status follows the procedure's text and never changes the code |
| Server.BookingCrashIff | app/apiserver/server.go:221-227 | The booking handler crashes exactly when it reaches the CRM and gets no answer body |
| Server.BookingPostgresLast | app/apiserver/server.go:221-240 | The Postgres insert happens exactly when the CRM answered, at most once, and as the last event, right after the response was written |
| Server.FormOutcomes | app/apiserver/server.go:247-281 | A decode failure gives 400. No validation is done. The code is 200 exactly when the CRM status is "OK", and no CRM answer means a crash. When the CRM answered, the event order is CRM call, response, insert |
| Server.CallbackOutcomes | app/apiserver/server.go:285-309 | The code is 200 exactly when the callback decodes and is stored. A failed insert gives 400 ending with ("Error", "error postgres storing"). Success carries the acknowledgement |
| Server.CallbackStored | app/apiserver/server.go:296-304 | A decoded lead_get callback gets 200 exactly when its transaction goes through |
| Server.ResponseWriter.WriteHeader | app/apiserver/server.go:86-87 | The first status code written is the one sent |
| Server.ResponseWriter.Encode | app/apiserver/server.go:88-90 | Encoding appends the document, and implies 200 when no code was written |
| Server.ApiServer.constructor | app/apiserver/server.go:42-52 | The server holds the store and the CRM, and has no legacy status and no events yet |
| Server.ApiServer.Respond | app/apiserver/server.go:86-91 | Writes the code, then the document |
| Server.ApiServer.Error | app/apiserver/server.go:80-83 | Writes the code, then the document {"error": message} |
| Server.ApiServer.HandleAuth | app/apiserver/server.go:127-157 | The response is AuthOutcome of the inputs, and the events are the lookups made before the first failure |
| Server.ApiServer.MiddleWare | app/apiserver/server.go:160-181 | Lets the request through, writing nothing, exactly when the token names a known user. Otherwise it writes the 401 refusal |
| Server.ApiServer.HandleRequestBooking | app/apiserver/server.go:184-244 | The response is BookingOutcome of the inputs. The procedure is called exactly when the booking decodes and validates, the CRM is posted to exactly when the procedure answered, and the as-written booking insert is attempted exactly when the CRM answered. No booking row is ever stored. The shared legacy status is updated exactly when the CRM is reached |
| Server.ApiServer.CallBookingProc | app/apiserver/server.go:198-204 | The procedure is called exactly when the booking validates, and the call succeeds exactly when the procedure answers |
| Server.ApiServer.ForwardBooking | app/apiserver/server.go:206-240 | Sets the legacy status, posts the CRM request, answers from the CRM reply, and attempts the as-written insert only when the CRM answered; no row is stored |
| Server.ApiServer.AnswerBooking | app/apiserver/server.go:227-233 | Writes 200 or 400 from the CRM status, with the legacy status and the procedure's text |
| Server.ApiServer.PostBooking | app/apiserver/server.go:221-225 | Posts the booking's CRM request once and returns the answer |
| Server.ApiServer.StoreBooking | app/apiserver/server.go:235-240 | Runs the as-written booking insert, which stores no row, and its error never reaches the response |
| Server.ApiServer.HandleRequestForm | app/apiserver/server.go:247-281 | The response is FormOutcome of the inputs. The CRM is posted to exactly when the form decodes, and the form row goes through the insert protocol exactly when the CRM answered |
| Server.ApiServer.AnswerCallback | app/apiserver/server.go:296-304 | Writes the callback's answer once its insert has run |
| Server.ApiServer.HandleRequestLeadGetGazCrm | app/apiserver/server.go:285-309 | The response is CallbackOutcome. The insert runs exactly when the body decodes, and the row is stored exactly when the transaction succeeds |
| Server.ApiServer.HandleRequestWorkListGazCrm | app/apiserver/server.go:312-336 | The same, for work_list callbacks |
| Server.ApiServer.HandleRequestStatusGazCrm | app/apiserver/server.go:339-363 | The same, for statuses callbacks |
| Server.ApiServer.ServeRequestBooking | app/apiserver/server.go:101-104 | A request the middleware refuses gets its 401 and reaches neither database nor the CRM. Any other request gets the booking handler's answer, events, procedure call, CRM post and insert attempt. Postgres rows never change |

## Left out

- JSON decoding and encoding, the HTTP POST to the CRM, and the SQL drivers are not modelled. Each handler and repository receives their results as arguments.
- Credential lookup, token creation and token verification belong to the user repository, whose implementation is not part of this model. The handlers receive their answers as arguments.
- Go's `http.ResponseWriter` is reduced to a status code and the list of documents written.
- Server bootstrap is not modelled: TLS, connection pools, the listener, configuration loading and `main`.
- The read-only catalog endpoints and their row-scanning queries are not modelled. They are thin SELECT-and-marshal wrappers.
- `CallMSMailing` is not modelled. Its only call is commented out.
- The 5-second timeouts are not modelled, because time is not modelled. Neither is the missing rollback after a failed Exec or Commit, which concerns connection resources.
- Logging is not modelled.
- Concurrency is not modelled. Requests are handled one at a time. This leaves out the unsynchronised lazy initialisation in the store and races on the closure-shared `errMs` of the booking handler. `errMs` is modelled as one field of the server, shared by every booking request.
- The closure-shared login request variable of `handleAuth` is not modelled: decoding is abstracted.
- The reflective slice indexing of the callback inserts is not modelled. The callback rows are built from the records' named fields in the source's column order.
- `DataGazCrm.Data` is not modelled as written. It is declared as one struct but appended to as a list, so the CRM request is modelled as the evidently intended ordered list of 21 one-key entries.
- Only the booking route is composed with the middleware (`ServeRequestBooking`). The other `/auth` routes are wrapped the same way by the router.
- `DriverValue` keeps floats and times only as tags. `NullString.Scan` ignores them, so nothing depends on their contents.
- GoTime.ParseDateTime: does not model the ',' fraction separator that newer Go releases also accept after the seconds; only '.' is modelled.
- BookingValidation.BookingErrorKeys: the listed-value and date rules are stated through the field-by-field predicate `BookingKeyOk`, which it relates to the error map, rather than as one lemma per field.
- HandleRequestBooking: when the CRM reply is missing, the nil dereference is modelled as a crash with nothing written. Go's HTTP server would recover the panic and close the connection.

## Findings

| source | as written | input that shows it | evidently intended | confidence | as-written member | corrected member |
|---|---|---|---|---|---|---|
| app/apiserver/store/sqlstore/datarepository.go:73-131 | The booking INSERT has 39 placeholders but binds 40 values | Any booking, with every database step succeeding: Exec is refused for its argument count, so no booking row is ever stored | One placeholder per bound value (40), so that a booking is stored whenever the database accepts it | not executed | SqlStatements.BookingInsertAsWrittenNeverCommits | SqlStatements.BookingInsertCommitsIff |
