/**
 * The statements the service sends to its databases: the argument rows of
 * the five Postgres INSERTs and the named parameters of the MSSQL booking
 * procedure.
 */
module SqlStatements {
  import opened Wrappers
  import opened Validation
  import opened Model
  import opened Sinks

  /** The booking INSERT as written: 39 placeholders. */
  const BookingInsertAsWritten := InsertQuery("booking", 39)
  /** The booking INSERT with one placeholder per bound value. */
  const BookingInsert := InsertQuery("booking", 40)
  const FormsInsert := InsertQuery("forms", 31)
  const LeadGetInsert := InsertQuery("gazcrm_lead_get", 12)
  const WorkListInsert := InsertQuery("gazcrm_work_list", 4)
  const StatusesInsert := InsertQuery("gazcrm_statuses", 7)

  /** The booking key whose value fills column `i` of the booking table. */
  function BookingColumn(i: int): JsonKey {
    match i
    case 0 => RequestId
    case 1 => ActionType
    case 2 => UniqModCode
    case 3 => Modification
    case 4 => ModFamily
    case 5 => ModBodyType
    case 6 => ModEngine
    case 7 => ModBase
    case 8 => ModTuning
    case 9 => Vin
    case 10 => Price
    case 11 => ClientType
    case 12 => Inn
    case 13 => Kpp
    case 14 => Ogrn
    case 15 => RegAddressCode
    case 16 => DeliveryAddressCode
    case 17 => DeliveryAddress
    case 18 => Hid
    case 19 => ClientCompanyName
    case 20 => RepresentativeName
    case 21 => RepresentativeSurname
    case 22 => Surname
    case 23 => ClientName
    case 24 => Patronymic
    case 25 => PassportSer
    case 26 => PassportNumber
    case 27 => Snils
    case 28 => DateOfBirth
    case 29 => ClientEmail
    case 30 => ClientPhoneNumber
    case 31 => Commentary
    case 32 => AgreementMailing
    case 33 => EventDatetime
    case 34 => File
    case 35 => BillNamber
    case 36 => UrlMod
    case 37 => ClientidGoogle
    case 38 => ClientId
    case _ => Testmod
  }

  /** The values the booking INSERT binds: the first 40 booking fields, in declaration order. */
  function BookingRow(d: DataBooking): (row: seq<SqlArg>)
    ensures |row| == 40
  {
    seq(40, i => SqlOf(BookingValue(d, BookingColumn(i))))
  }

  /** The form key whose value fills column `i` of the forms table. */
  function FormsColumn(i: int): JsonKey {
    match i
    case 0 => EventDatetime
    case 1 => RequestId
    case 2 => SubdivisionsId
    case 3 => SubdivisionsName
    case 4 => FormName
    case 5 => IdForm
    case 6 => HostName
    case 7 => Division
    case 8 => Area
    case 9 => BrandName
    case 10 => CarModel
    case 11 => ClientId
    case 12 => MetricsType
    case 13 => ClientIp
    case 14 => ClientType
    case 15 => ClientCompanyName
    case 16 => ClientName
    case 17 => ClientEmail
    case 18 => ClientPhoneNumber
    case 19 => Commentary
    case 20 => AgreementMailing
    case 21 => ActionType
    case 22 => Modification
    case 23 => ModFamily
    case 24 => ModBodyType
    case 25 => ModEngine
    case 26 => ModBase
    case 27 => ModTuning
    case 28 => Vin
    case 29 => Price
    case _ => UrlMod
  }

  /** The values the forms INSERT binds: every form field, in declaration order. */
  function FormsRow(d: DataForms): (row: seq<SqlArg>)
    ensures |row| == 31
  {
    seq(31, i => SqlOf(FormsValue(d, FormsColumn(i))))
  }

  function LeadGetRow(d: DataLeadGet): seq<SqlArg> {
    [SText(d.timeRequest), SText(d.eventName), SText(d.requestId), SText(d.subdivisionsId),
     SText(d.subdivisionsName), SText(d.formName), SText(d.hostName), SText(d.division),
     SText(d.area), SText(d.brandName), SText(d.clientId), SText(d.metricsType)]
  }

  function WorkListRow(d: DataWorkList): seq<SqlArg> {
    [SText(d.timeRequest), SText(d.eventName), SText(d.gazcrmClientId), SText(d.gazCrmWorkListId)]
  }

  function StatusesRow(d: DataStatuses): seq<SqlArg> {
    [SText(d.timeRequest), SText(d.eventName), SText(d.requestId), SText(d.gazcrmClientId),
     SText(d.gazCrmWorkListId), SText(d.clientId), SText(d.metricsType)]
  }

  /** Reads a lead_get record back from a stored row. */
  function LeadGetOfRow(r: seq<SqlArg>): Option<DataLeadGet> {
    if |r| == 12 && forall i :: 0 <= i < 12 ==> r[i].SText? then
      Some(DataLeadGet(r[0].s, r[1].s, r[2].s, r[3].s, r[4].s, r[5].s, r[6].s, r[7].s,
                       r[8].s, r[9].s, r[10].s, r[11].s))
    else None
  }

  /** Reads a work_list record back from a stored row. */
  function WorkListOfRow(r: seq<SqlArg>): Option<DataWorkList> {
    if |r| == 4 && forall i :: 0 <= i < 4 ==> r[i].SText? then
      Some(DataWorkList(r[0].s, r[1].s, r[2].s, r[3].s))
    else None
  }

  /** Reads a statuses record back from a stored row. */
  function StatusesOfRow(r: seq<SqlArg>): Option<DataStatuses> {
    if |r| == 7 && forall i :: 0 <= i < 7 ==> r[i].SText? then
      Some(DataStatuses(r[0].s, r[1].s, r[2].s, r[3].s, r[4].s, r[5].s, r[6].s))
    else None
  }

  /**
   * Each callback row holds every field of its record exactly once, in the
   * record's order: reading the row back gives the record.
   */
  lemma CallbackRowsRoundTrip(l: DataLeadGet, w: DataWorkList, s: DataStatuses)
    ensures LeadGetOfRow(LeadGetRow(l)) == Some(l)
    ensures WorkListOfRow(WorkListRow(w)) == Some(w)
    ensures StatusesOfRow(StatusesRow(s)) == Some(s)
  {
  }

  /**
   * The forms, lead_get, work_list and statuses INSERTs bind exactly as many
   * values as they have placeholders; the booking INSERT as written binds 40
   * values against 39 placeholders, the corrected one 40 against 40.
   */
  lemma InsertArities(b: DataBooking, f: DataForms, l: DataLeadGet, w: DataWorkList, s: DataStatuses)
    ensures |FormsRow(f)| == FormsInsert.placeholders
    ensures |LeadGetRow(l)| == LeadGetInsert.placeholders
    ensures |WorkListRow(w)| == WorkListInsert.placeholders
    ensures |StatusesRow(s)| == StatusesInsert.placeholders
    ensures |BookingRow(b)| == BookingInsert.placeholders == BookingInsertAsWritten.placeholders + 1
  {
  }

  /**
   * The booking INSERT as written never commits: whatever the database
   * answers, Exec is refused for its argument count, no Commit is issued and
   * the insert reports an error.
   */
  lemma BookingInsertAsWrittenNeverCommits(d: DataBooking, f: TxFaults)
    ensures TxResult(BookingInsertAsWritten, BookingRow(d), f).Some?
    ensures TxCommit !in TxTrace(BookingInsertAsWritten, BookingRow(d), f)
    ensures f.begin.None? ==> TxResult(BookingInsertAsWritten, BookingRow(d), f) == Some(ArgCount(39, 40))
  {
  }

  /** The corrected booking INSERT commits exactly when the database reports no failure. */
  lemma BookingInsertCommitsIff(d: DataBooking, f: TxFaults)
    ensures TxResult(BookingInsert, BookingRow(d), f).None? <==>
      f.begin.None? && f.exec.None? && f.commit.None?
  {
    TxSucceedsIff(BookingInsert, BookingRow(d), f);
  }

  /** The stored procedure's parameter names, in the order the call passes them. */
  function MssqlParamName(i: int): string {
    match i
    case 0 => "ИдентификаторОбращения"
    case 1 => "Действие"
    case 2 => "НомернойТовар"
    case 3 => "ВИН"
    case 4 => "ЦенаСНДС"
    case 5 => "ТипКонтрагента"
    case 6 => "ИНН"
    case 7 => "КПП"
    case 8 => "ОГРН"
    case 9 => "АдресЮридический"
    case 10 => "АдресДоставки"
    case 11 => "Hid"
    case 12 => "Наименование"
    case 13 => "Фамилия"
    case 14 => "Имя"
    case 15 => "ДатаРождения"
    case 16 => "Отчество"
    case 17 => "СерияПаспорта"
    case 18 => "НомерПаспорта"
    case 19 => "СНИЛС"
    case 20 => "ЭлектроннаяПочта"
    case 21 => "Телефоны"
    case 22 => "МоментОбращения"
    case 23 => "НомерСчета"
    case 24 => "Ошибка"
    case _ => "ВыполнитьТестовыйВызов"
  }

  /** The booking key whose value the stored procedure receives as parameter `i`. */
  function MssqlParamKey(i: int): JsonKey {
    match i
    case 0 => RequestId
    case 1 => ActionType
    case 2 => UniqModCode
    case 3 => Vin
    case 4 => Price
    case 5 => ClientType
    case 6 => Inn
    case 7 => Kpp
    case 8 => Ogrn
    case 9 => RegAddressCode
    case 10 => DeliveryAddressCode
    case 11 => Hid
    case 12 => ClientCompanyName
    case 13 => Surname
    case 14 => ClientName
    case 15 => DateOfBirth
    case 16 => Patronymic
    case 17 => PassportSer
    case 18 => PassportNumber
    case 19 => Snils
    case 20 => ClientEmail
    case 21 => ClientPhoneNumber
    case 22 => EventDatetime
    case 23 => BillNamber
    case _ => Testmod
  }

  /** Parameter 24 is the procedure's output slot, "Ошибка". */
  const MssqlOutIndex := 24

  function MssqlParam(d: DataBooking, i: int): NamedArg {
    if i == MssqlOutIndex then Output(MssqlParamName(i))
    else Input(MssqlParamName(i), SqlOf(BookingValue(d, MssqlParamKey(i))))
  }

  /** The named parameters of the booking procedure call. */
  function MssqlParams(d: DataBooking): seq<NamedArg> {
    seq(26, i => MssqlParam(d, i))
  }

  /**
   * The booking procedure gets 26 parameters with pairwise distinct names;
   * exactly one, "Ошибка", is an output.
   */
  lemma MssqlParamsShape(d: DataBooking)
    ensures |MssqlParams(d)| == 26
    ensures forall i, j :: 0 <= i < j < 26 ==> MssqlParams(d)[i].name != MssqlParams(d)[j].name
    ensures forall i :: 0 <= i < 26 ==> (MssqlParams(d)[i].Output? <==> i == MssqlOutIndex)
    ensures MssqlParams(d)[MssqlOutIndex] == Output("Ошибка")
  {
    forall i | 0 <= i < 26
      ensures forall j :: i < j < 26 ==> MssqlParamName(i) != MssqlParamName(j)
    {
      MssqlNameDistinctFrom(i);
    }
  }

  lemma MssqlNameDistinctFrom(i: int)
    requires 0 <= i < 26
    ensures forall j :: i < j < 26 ==> MssqlParamName(i) != MssqlParamName(j)
  {
  }

  /**
   * Every input of the booking procedure carries one booking field
   * unchanged: the numbers as integers, the texts as text and the test flag
   * as a boolean, each under its own parameter name.
   */
  lemma MssqlParamsValues(d: DataBooking)
    ensures MssqlParams(d)[0] == Input("ИдентификаторОбращения", SText(d.requestId))
    ensures MssqlParams(d)[1] == Input("Действие", SText(d.actionType))
    ensures MssqlParams(d)[2] == Input("НомернойТовар", SInt(d.uniqModCode))
    ensures MssqlParams(d)[3] == Input("ВИН", SText(d.vin))
    ensures MssqlParams(d)[4] == Input("ЦенаСНДС", SInt(d.priceWithNds))
    ensures MssqlParams(d)[5] == Input("ТипКонтрагента", SText(d.typeClient))
    ensures MssqlParams(d)[6] == Input("ИНН", SText(d.inn))
    ensures MssqlParams(d)[7] == Input("КПП", SText(d.kpp))
    ensures MssqlParams(d)[8] == Input("ОГРН", SText(d.ogrn))
    ensures MssqlParams(d)[9] == Input("АдресЮридический", SText(d.yurAddressCode))
    ensures MssqlParams(d)[10] == Input("АдресДоставки", SText(d.deliveryAddressCode))
    ensures MssqlParams(d)[11] == Input("Hid", SText(d.hid))
    ensures MssqlParams(d)[12] == Input("Наименование", SText(d.companyName))
    ensures MssqlParams(d)[13] == Input("Фамилия", SText(d.surname))
    ensures MssqlParams(d)[14] == Input("Имя", SText(d.name))
    ensures MssqlParams(d)[15] == Input("ДатаРождения", SText(d.dateOfBirth))
    ensures MssqlParams(d)[16] == Input("Отчество", SText(d.patronymic))
    ensures MssqlParams(d)[17] == Input("СерияПаспорта", SText(d.passportSer))
    ensures MssqlParams(d)[18] == Input("НомерПаспорта", SText(d.passportNumber))
    ensures MssqlParams(d)[19] == Input("СНИЛС", SText(d.snils))
    ensures MssqlParams(d)[20] == Input("ЭлектроннаяПочта", SText(d.email))
    ensures MssqlParams(d)[21] == Input("Телефоны", SText(d.phoneNumber))
    ensures MssqlParams(d)[22] == Input("МоментОбращения", SText(d.timeRequest))
    ensures MssqlParams(d)[23] == Input("НомерСчета", SText(d.billNumber))
    ensures MssqlParams(d)[25] == Input("ВыполнитьТестовыйВызов", SBool(d.testMod))
  {
    MssqlParamsAt(d);
    MssqlInputs0(d);
    MssqlInputs1(d);
    MssqlInputs2(d);
    MssqlInputs3(d);
    MssqlInputs4(d);
    MssqlInputs5(d);
    MssqlInputs6(d);
  }

  /**
   * The parameter list read entry by entry; `MssqlInputs0` to `MssqlInputs6`
   * read the inputs a few at a time, which keeps each proof small.
   */
  lemma MssqlParamsAt(d: DataBooking)
    ensures |MssqlParams(d)| == 26
    ensures forall i :: 0 <= i < 26 ==> MssqlParams(d)[i] == MssqlParam(d, i)
  {
  }

  lemma MssqlInputs0(d: DataBooking)
    ensures MssqlParam(d, 0) == Input("ИдентификаторОбращения", SText(d.requestId))
    ensures MssqlParam(d, 1) == Input("Действие", SText(d.actionType))
    ensures MssqlParam(d, 2) == Input("НомернойТовар", SInt(d.uniqModCode))
    ensures MssqlParam(d, 3) == Input("ВИН", SText(d.vin))
    ensures MssqlParam(d, 4) == Input("ЦенаСНДС", SInt(d.priceWithNds))
    ensures MssqlParam(d, 5) == Input("ТипКонтрагента", SText(d.typeClient))
  {
  }

  lemma MssqlInputs1(d: DataBooking)
    ensures MssqlParam(d, 6) == Input("ИНН", SText(d.inn))
    ensures MssqlParam(d, 7) == Input("КПП", SText(d.kpp))
    ensures MssqlParam(d, 8) == Input("ОГРН", SText(d.ogrn))
    ensures MssqlParam(d, 9) == Input("АдресЮридический", SText(d.yurAddressCode))
    ensures MssqlParam(d, 10) == Input("АдресДоставки", SText(d.deliveryAddressCode))
  {
  }

  lemma MssqlInputs2(d: DataBooking)
    ensures MssqlParam(d, 11) == Input("Hid", SText(d.hid))
    ensures MssqlParam(d, 12) == Input("Наименование", SText(d.companyName))
    ensures MssqlParam(d, 13) == Input("Фамилия", SText(d.surname))
    ensures MssqlParam(d, 14) == Input("Имя", SText(d.name))
  {
  }

  lemma MssqlInputs3(d: DataBooking)
    ensures MssqlParam(d, 15) == Input("ДатаРождения", SText(d.dateOfBirth))
    ensures MssqlParam(d, 16) == Input("Отчество", SText(d.patronymic))
    ensures MssqlParam(d, 17) == Input("СерияПаспорта", SText(d.passportSer))
  {
  }

  lemma MssqlInputs4(d: DataBooking)
    ensures MssqlParam(d, 18) == Input("НомерПаспорта", SText(d.passportNumber))
    ensures MssqlParam(d, 19) == Input("СНИЛС", SText(d.snils))
    ensures MssqlParam(d, 20) == Input("ЭлектроннаяПочта", SText(d.email))
  {
  }

  lemma MssqlInputs5(d: DataBooking)
    ensures MssqlParam(d, 21) == Input("Телефоны", SText(d.phoneNumber))
    ensures MssqlParam(d, 22) == Input("МоментОбращения", SText(d.timeRequest))
  {
  }

  lemma MssqlInputs6(d: DataBooking)
    ensures MssqlParam(d, 23) == Input("НомерСчета", SText(d.billNumber))
    ensures MssqlParam(d, 25) == Input("ВыполнитьТестовыйВызов", SBool(d.testMod))
  {
  }
}
