/**
 * The request records of the booking/form service and the rules they are
 * validated against, the SQL NULL-string adapter and the records of the CRM's
 * answers and callbacks.
 */
module Model {
  import opened Wrappers
  import opened Validation
  import GoTime

  /**
   * The JSON keys of the submission records. The validators report errors
   * under these keys, and the CRM request names its entries by them.
   */
  datatype JsonKey =
    | RequestId | ActionType | UniqModCode | Modification | ModFamily | ModBodyType | ModEngine
    | ModBase | ModTuning | Vin | Price | ClientType | Inn | Kpp | Ogrn | RegAddressCode
    | DeliveryAddressCode | DeliveryAddress | Hid | ClientCompanyName | RepresentativeName
    | RepresentativeSurname | Surname | ClientName | Patronymic | PassportSer | PassportNumber
    | Snils | DateOfBirth | ClientEmail | ClientPhoneNumber | Commentary | AgreementMailing
    | EventDatetime | File | BillNamber | UrlMod | ClientidGoogle | ClientId | Testmod
    | SubdivisionsId | SubdivisionsName | FormName | IdForm | HostName | Division | Area
    | BrandName | CarModel | MetricsType | ClientIp

  function JsonTag(k: JsonKey): string {
    match k
    case RequestId => "request_id"
    case ActionType => "action_type"
    case UniqModCode => "uniq_mod_code"
    case Modification => "modification"
    case ModFamily => "mod_family"
    case ModBodyType => "mod_body_type"
    case ModEngine => "mod_engine"
    case ModBase => "mod_base"
    case ModTuning => "mod_tuning"
    case Vin => "vin"
    case Price => "price"
    case ClientType => "client_type"
    case Inn => "inn"
    case Kpp => "kpp"
    case Ogrn => "ogrn"
    case RegAddressCode => "reg_address_code"
    case DeliveryAddressCode => "delivery_address_code"
    case DeliveryAddress => "delivery_address"
    case Hid => "hid"
    case ClientCompanyName => "client_company_name"
    case RepresentativeName => "representative_name"
    case RepresentativeSurname => "representative_surname"
    case Surname => "surname"
    case ClientName => "client_name"
    case Patronymic => "patronymic"
    case PassportSer => "passport_ser"
    case PassportNumber => "passport_number"
    case Snils => "snils"
    case DateOfBirth => "date_of_birth"
    case ClientEmail => "client_email"
    case ClientPhoneNumber => "client_phone_number"
    case Commentary => "commentary"
    case AgreementMailing => "agreement_mailing"
    case EventDatetime => "event_datetime"
    case File => "file"
    case BillNamber => "bill_namber"
    case UrlMod => "url_mod"
    case ClientidGoogle => "clientid_google"
    case ClientId => "ClientID"
    case Testmod => "testmod"
    case SubdivisionsId => "subdivisions_id"
    case SubdivisionsName => "subdivisions_name"
    case FormName => "form_name"
    case IdForm => "id_form"
    case HostName => "host_name"
    case Division => "division"
    case Area => "area"
    case BrandName => "brand_name"
    case CarModel => "car_model"
    case MetricsType => "metrics_type"
    case ClientIp => "client_IP"
  }

  /** A booking (vehicle order) submission. */
  datatype DataBooking = DataBooking(
    requestId: string, actionType: string, uniqModCode: int, modification: string,
    modFamily: string, modBodyType: string, modEngine: string, modBase: string, modTuning: string,
    vin: string, priceWithNds: int, typeClient: string, inn: string, kpp: string, ogrn: string,
    yurAddressCode: string, deliveryAddressCode: string, deliveryAddress: string, hid: string,
    companyName: string, representativeName: string, representativeSurname: string,
    surname: string, name: string, patronymic: string, passportSer: string, passportNumber: string,
    snils: string, dateOfBirth: string, email: string, phoneNumber: string, comment: string,
    consentMailing: string, timeRequest: string, file: string, billNumber: string, urlMod: string,
    clientId: string, ymUid: string, testMod: bool,
    subdivisionsId: string, subdivisionsName: string, formName: string, formId: string,
    hostName: string, division: string, area: string, brandName: string, carModel: string,
    metricsType: string, clientIp: string)

  /** The value a booking holds under each JSON key, as the validator reads it. */
  function BookingValue(d: DataBooking, k: JsonKey): Value {
    match k
    case RequestId => Text(d.requestId)
    case ActionType => Text(d.actionType)
    case UniqModCode => Number(d.uniqModCode)
    case Modification => Text(d.modification)
    case ModFamily => Text(d.modFamily)
    case ModBodyType => Text(d.modBodyType)
    case ModEngine => Text(d.modEngine)
    case ModBase => Text(d.modBase)
    case ModTuning => Text(d.modTuning)
    case Vin => Text(d.vin)
    case Price => Number(d.priceWithNds)
    case ClientType => Text(d.typeClient)
    case Inn => Text(d.inn)
    case Kpp => Text(d.kpp)
    case Ogrn => Text(d.ogrn)
    case RegAddressCode => Text(d.yurAddressCode)
    case DeliveryAddressCode => Text(d.deliveryAddressCode)
    case DeliveryAddress => Text(d.deliveryAddress)
    case Hid => Text(d.hid)
    case ClientCompanyName => Text(d.companyName)
    case RepresentativeName => Text(d.representativeName)
    case RepresentativeSurname => Text(d.representativeSurname)
    case Surname => Text(d.surname)
    case ClientName => Text(d.name)
    case Patronymic => Text(d.patronymic)
    case PassportSer => Text(d.passportSer)
    case PassportNumber => Text(d.passportNumber)
    case Snils => Text(d.snils)
    case DateOfBirth => Text(d.dateOfBirth)
    case ClientEmail => Text(d.email)
    case ClientPhoneNumber => Text(d.phoneNumber)
    case Commentary => Text(d.comment)
    case AgreementMailing => Text(d.consentMailing)
    case EventDatetime => Text(d.timeRequest)
    case File => Text(d.file)
    case BillNamber => Text(d.billNumber)
    case UrlMod => Text(d.urlMod)
    case ClientidGoogle => Text(d.clientId)
    case ClientId => Text(d.ymUid)
    case Testmod => Flag(d.testMod)
    case SubdivisionsId => Text(d.subdivisionsId)
    case SubdivisionsName => Text(d.subdivisionsName)
    case FormName => Text(d.formName)
    case IdForm => Text(d.formId)
    case HostName => Text(d.hostName)
    case Division => Text(d.division)
    case Area => Text(d.area)
    case BrandName => Text(d.brandName)
    case CarModel => Text(d.carModel)
    case MetricsType => Text(d.metricsType)
    case ClientIp => Text(d.clientIp)
  }

  /** The text held under a JSON key of a booking; None for the numeric and boolean keys. */
  function BookingText(d: DataBooking, k: JsonKey): Option<string> {
    var v := BookingValue(d, k);
    if v.Text? then Some(v.s) else None
  }

  const ClientTypes: seq<string> := ["company", "personal"]
  const MailingAnswers: seq<string> := ["yes", "no"]
  const Divisions: seq<string> := ["lcv/mcv", "bus"]
  const Areas: seq<string> := ["dealer", "distrib"]
  const MetricsTypes: seq<string> := ["yandex"]
  const BookingActions: seq<string> := ["form", "bill", "acquiring"]
  const FormActions: seq<string> := ["form"]

  /** Entry `i` of the rule list of the booking validator, repeats included. */
  function BookingRule(i: int): Field<JsonKey> {
    match i
    case 0 => Field(RequestId, [Required])
    case 1 => Field(UniqModCode, [Required])
    case 2 => Field(Modification, [Required])
    case 3 => Field(ModFamily, [Required])
    case 4 => Field(ModBodyType, [Required])
    case 5 => Field(ModEngine, [Required])
    case 6 => Field(ModBase, [Required])
    case 7 => Field(ModTuning, [Required])
    case 8 => Field(Vin, [Required])
    case 9 => Field(Price, [Required])
    case 10 => Field(ClientType, [In(ClientTypes)])
    case 11 => Field(Inn, [Required])
    case 12 => Field(Kpp, [Required])
    case 13 => Field(Ogrn, [Required])
    case 14 => Field(RegAddressCode, [Required])
    case 15 => Field(DeliveryAddressCode, [Required])
    case 16 => Field(Hid, [Required])
    case 17 => Field(ClientCompanyName, [Required])
    case 18 => Field(Surname, [Required])
    case 19 => Field(ClientName, [Required])
    case 20 => Field(Patronymic, [Required])
    case 21 => Field(DateOfBirth, [Date(DateLayout)])
    case 22 => Field(PassportSer, [Required])
    case 23 => Field(PassportNumber, [Required])
    case 24 => Field(ClientEmail, [Required])
    case 25 => Field(ClientPhoneNumber, [Required])
    case 26 => Field(EventDatetime, [Date(DateTimeLayout)])
    case 27 => Field(Patronymic, [Required])
    case 28 => Field(AgreementMailing, [In(MailingAnswers)])
    case 29 => Field(Division, [In(Divisions)])
    case 30 => Field(Area, [In(Areas)])
    case 31 => Field(MetricsType, [In(MetricsTypes)])
    case 32 => Field(ClientType, [In(ClientTypes)])
    case 33 => Field(EventDatetime, [Date(DateTimeLayout)])
    case _ => Field(ActionType, [Required, In(BookingActions)])
  }

  /** The rule list of the booking validator, entry for entry. */
  function BookingSchema(): seq<Field<JsonKey>> {
    seq(35, BookingRule)
  }

  /**
   * The same rule list without the entries that repeat an earlier one: the
   * second patronymic (27), client_type (32) and event_datetime (33) entries.
   */
  function BookingSchemaWithoutRepeats(): seq<Field<JsonKey>> {
    BookingSchema()[..27] + BookingSchema()[28..32] + BookingSchema()[34..]
  }

  /** A text that, when present, must be one of the listed values. */
  predicate EmptyOrOneOf(s: string, allowed: seq<string>) {
    s == "" || s in allowed
  }

  predicate EmptyOrDate(s: string) {
    s == "" || GoTime.ParseDate(s).Some?
  }

  predicate EmptyOrDateTime(s: string) {
    s == "" || GoTime.ParseDateTime(s).Some?
  }

  /** What the booking rules demand of each key, stated field by field. */
  predicate BookingKeyOk(d: DataBooking, k: JsonKey) {
    match k
    case RequestId => d.requestId != ""
    case UniqModCode => d.uniqModCode != 0
    case Modification => d.modification != ""
    case ModFamily => d.modFamily != ""
    case ModBodyType => d.modBodyType != ""
    case ModEngine => d.modEngine != ""
    case ModBase => d.modBase != ""
    case ModTuning => d.modTuning != ""
    case Vin => d.vin != ""
    case Price => d.priceWithNds != 0
    case ClientType => EmptyOrOneOf(d.typeClient, ClientTypes)
    case Inn => d.inn != ""
    case Kpp => d.kpp != ""
    case Ogrn => d.ogrn != ""
    case RegAddressCode => d.yurAddressCode != ""
    case DeliveryAddressCode => d.deliveryAddressCode != ""
    case Hid => d.hid != ""
    case ClientCompanyName => d.companyName != ""
    case Surname => d.surname != ""
    case ClientName => d.name != ""
    case Patronymic => d.patronymic != ""
    case DateOfBirth => EmptyOrDate(d.dateOfBirth)
    case PassportSer => d.passportSer != ""
    case PassportNumber => d.passportNumber != ""
    case ClientEmail => d.email != ""
    case ClientPhoneNumber => d.phoneNumber != ""
    case EventDatetime => EmptyOrDateTime(d.timeRequest)
    case AgreementMailing => EmptyOrOneOf(d.consentMailing, MailingAnswers)
    case Division => EmptyOrOneOf(d.division, Divisions)
    case Area => EmptyOrOneOf(d.area, Areas)
    case MetricsType => EmptyOrOneOf(d.metricsType, MetricsTypes)
    case ActionType => d.actionType != "" && d.actionType in BookingActions
    case _ => true
  }

  /** A website form submission (lead request). */
  datatype DataForms = DataForms(
    timeRequest: string, requestId: string, subdivisionsId: string, subdivisionsName: string,
    formName: string, formId: string, hostName: string, division: string, area: string,
    brandName: string, carModel: string, clientId: string, metricsType: string, clientIp: string,
    typeClient: string, companyName: string, name: string, email: string, phoneNumber: string,
    comment: string, consentMailing: string, actionType: string, modification: string,
    modFamily: string, modBodyType: string, modEngine: string, modBase: string, modTuning: string,
    vin: string, priceWithNds: int, urlMod: string)

  /**
   * The value a form holds under each JSON key, as the validator reads it.
   * A form has no field under the booking-only keys; those read as empty.
   */
  function FormsValue(d: DataForms, k: JsonKey): Value {
    match k
    case EventDatetime => Text(d.timeRequest)
    case RequestId => Text(d.requestId)
    case SubdivisionsId => Text(d.subdivisionsId)
    case SubdivisionsName => Text(d.subdivisionsName)
    case FormName => Text(d.formName)
    case IdForm => Text(d.formId)
    case HostName => Text(d.hostName)
    case Division => Text(d.division)
    case Area => Text(d.area)
    case BrandName => Text(d.brandName)
    case CarModel => Text(d.carModel)
    case ClientId => Text(d.clientId)
    case MetricsType => Text(d.metricsType)
    case ClientIp => Text(d.clientIp)
    case ClientType => Text(d.typeClient)
    case ClientCompanyName => Text(d.companyName)
    case ClientName => Text(d.name)
    case ClientEmail => Text(d.email)
    case ClientPhoneNumber => Text(d.phoneNumber)
    case Commentary => Text(d.comment)
    case AgreementMailing => Text(d.consentMailing)
    case ActionType => Text(d.actionType)
    case Modification => Text(d.modification)
    case ModFamily => Text(d.modFamily)
    case ModBodyType => Text(d.modBodyType)
    case ModEngine => Text(d.modEngine)
    case ModBase => Text(d.modBase)
    case ModTuning => Text(d.modTuning)
    case Vin => Text(d.vin)
    case Price => Number(d.priceWithNds)
    case UrlMod => Text(d.urlMod)
    case _ => Text("")
  }

  /** Entry `i` of the rule list of the form validator. */
  function FormsRule(i: int): Field<JsonKey> {
    match i
    case 0 => Field(RequestId, [Required])
    case 1 => Field(SubdivisionsId, [Required])
    case 2 => Field(SubdivisionsName, [Required])
    case 3 => Field(FormName, [Required])
    case 4 => Field(IdForm, [Required])
    case 5 => Field(HostName, [Required])
    case 6 => Field(BrandName, [Required])
    case 7 => Field(CarModel, [Required])
    case 8 => Field(ClientId, [Required])
    case 9 => Field(MetricsType, [Required])
    case 10 => Field(ClientName, [Required])
    case 11 => Field(ClientEmail, [Required])
    case 12 => Field(ClientPhoneNumber, [Required])
    case 13 => Field(UrlMod, [Required])
    case 14 => Field(Modification, [Required])
    case 15 => Field(ModFamily, [Required])
    case 16 => Field(ModBodyType, [Required])
    case 17 => Field(ModEngine, [Required])
    case 18 => Field(ModBase, [Required])
    case 19 => Field(ModTuning, [Required])
    case 20 => Field(Vin, [Required])
    case 21 => Field(Price, [Required])
    case 22 => Field(Division, [In(Divisions)])
    case 23 => Field(Area, [In(Areas)])
    case 24 => Field(MetricsType, [In(MetricsTypes)])
    case 25 => Field(ClientType, [In(ClientTypes)])
    case 26 => Field(EventDatetime, [Date(DateTimeLayout)])
    case 27 => Field(ActionType, [Required, In(FormActions)])
    case _ => Field(AgreementMailing, [In(MailingAnswers)])
  }

  /** The rule list of the form validator, entry for entry. */
  function FormsSchema(): seq<Field<JsonKey>> {
    seq(29, FormsRule)
  }

  /**
   * What the form rules demand of each key, stated field by field. The
   * metrics_type key carries two entries (required, then one of the list),
   * so together they demand exactly "yandex".
   */
  predicate FormsKeyOk(d: DataForms, k: JsonKey) {
    match k
    case RequestId => d.requestId != ""
    case SubdivisionsId => d.subdivisionsId != ""
    case SubdivisionsName => d.subdivisionsName != ""
    case FormName => d.formName != ""
    case IdForm => d.formId != ""
    case HostName => d.hostName != ""
    case BrandName => d.brandName != ""
    case CarModel => d.carModel != ""
    case ClientId => d.clientId != ""
    case MetricsType => d.metricsType != "" && d.metricsType in MetricsTypes
    case ClientName => d.name != ""
    case ClientEmail => d.email != ""
    case ClientPhoneNumber => d.phoneNumber != ""
    case UrlMod => d.urlMod != ""
    case Modification => d.modification != ""
    case ModFamily => d.modFamily != ""
    case ModBodyType => d.modBodyType != ""
    case ModEngine => d.modEngine != ""
    case ModBase => d.modBase != ""
    case ModTuning => d.modTuning != ""
    case Vin => d.vin != ""
    case Price => d.priceWithNds != 0
    case Division => EmptyOrOneOf(d.division, Divisions)
    case Area => EmptyOrOneOf(d.area, Areas)
    case ClientType => EmptyOrOneOf(d.typeClient, ClientTypes)
    case EventDatetime => EmptyOrDateTime(d.timeRequest)
    case ActionType => d.actionType != "" && d.actionType in FormActions
    case AgreementMailing => EmptyOrOneOf(d.consentMailing, MailingAnswers)
    case _ => true
  }

  /** The answer of the CRM to a submission. */
  datatype ResponseGazCrm = ResponseGazCrm(status: string, message: string)

  /** A lead_get callback of the CRM. */
  datatype DataLeadGet = DataLeadGet(
    timeRequest: string, eventName: string, requestId: string, subdivisionsId: string,
    subdivisionsName: string, formName: string, hostName: string, division: string, area: string,
    brandName: string, clientId: string, metricsType: string)

  /** A work_list callback of the CRM. */
  datatype DataWorkList = DataWorkList(
    timeRequest: string, eventName: string, gazcrmClientId: string, gazCrmWorkListId: string)

  /** A statuses callback of the CRM. */
  datatype DataStatuses = DataStatuses(
    timeRequest: string, eventName: string, requestId: string, gazcrmClientId: string,
    gazCrmWorkListId: string, clientId: string, metricsType: string)

  /** A value a SQL driver hands to, or takes from, a column adapter. */
  datatype DriverValue =
    | Nil
    | Str(s: string)
    | Int64(i: int)
    | Float64(r: real)
    | Bool(b: bool)
    | Bytes(bs: seq<bv8>)
    | Time(unixNanos: int)

  /**
   * The text a NULL-string column adapter holds after scanning `value` when it
   * held `before`: SQL NULL becomes the literal "nil", a string is stored as
   * it is, and any other value is ignored.
   */
  function Scanned(before: string, value: DriverValue): string {
    match value
    case Nil => "nil"
    case Str(s) => s
    case _ => before
  }

  /** The driver value of a NULL-string: NULL for the empty text, else the text. */
  function NullValue(text: string): (v: DriverValue)
    ensures v == Nil <==> text == ""
    ensures v != Nil ==> v == Str(text)
  {
    if |text| == 0 then Nil else Str(text)
  }

  /** A string column adapter that maps SQL NULL to the text "nil". */
  class NullString {
    var text: string

    constructor(text: string)
      ensures this.text == text
    {
      this.text := text;
    }

    /** Scanning never fails; the new text is given by `Scanned`. */
    method Scan(value: DriverValue) returns (err: Option<string>)
      modifies this
      ensures err == None
      ensures text == Scanned(old(text), value)
    {
      if value == Nil {
        text := "nil";
        return None;
      }
      if !value.Str? {
        return None;
      }
      text := value.s;
      return None;
    }

    /** The value the adapter hands to the driver. */
    function Value(): (v: DriverValue)
      reads this
      ensures v == NullValue(text)
    {
      if |text| == 0 then Nil else Str(text)
    }
  }

  /** Scanning a non-empty string and reading the value back gives that string. */
  lemma ScanValueRoundTrip(before: string, s: string)
    requires s != ""
    ensures NullValue(Scanned(before, Str(s))) == Str(s)
  {
  }

  /** SQL NULL does not survive a round trip: it comes back as the string "nil". */
  lemma ScanNilReadsNil(before: string)
    ensures NullValue(Scanned(before, Nil)) == Str("nil")
  {
  }

  /** The empty string scans to the empty text, which is written back as NULL. */
  lemma ScanEmptyWritesNull(before: string)
    ensures NullValue(Scanned(before, Str(""))) == Nil
  {
  }

  /** A value that is neither NULL nor a string (bytes included) leaves the text as it was. */
  lemma ScanIgnoresNonStrings(before: string, value: DriverValue)
    requires !value.Nil? && !value.Str?
    ensures Scanned(before, value) == before
  {
  }

  /** Writing a text and scanning the written value back restores it, except that "" comes back as "nil". */
  lemma ValueScanRoundTrip(before: string, text: string)
    ensures Scanned(before, NullValue(text)) == if text == "" then "nil" else text
  {
  }
}
