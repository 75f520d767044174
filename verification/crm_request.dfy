/**
 * The request the service posts to the CRM for a booking or a form: a list
 * of 21 one-key objects, always in the same key order, each holding one
 * field of the submission.
 */
module CrmRequest {
  import opened Wrappers
  import opened Validation
  import opened Model

  /** The JSON key of entry `i` of the CRM request. */
  function CrmTag(i: int): string {
    match i
    case 0 => "event_datetime"
    case 1 => "request_id"
    case 2 => "subdivisions_id"
    case 3 => "subdivisions_name"
    case 4 => "form_name"
    case 5 => "id_form"
    case 6 => "host_name"
    case 7 => "division"
    case 8 => "area"
    case 9 => "brand_name"
    case 10 => "car_model"
    case 11 => "ClientID"
    case 12 => "metrics_type"
    case 13 => "client_IP"
    case 14 => "client_type"
    case 15 => "client_company_name"
    case 16 => "client_name"
    case 17 => "client_email"
    case 18 => "client_phone_number"
    case 19 => "commentary"
    case _ => "agreement_mailing"
  }

  /** The keys of the CRM request, in order. */
  function CrmTags(): seq<string> {
    seq(21, CrmTag)
  }

  /** The 21 keys of the CRM request are pairwise distinct. */
  lemma CrmTagsDistinct()
    ensures |CrmTags()| == 21
    ensures forall i, j :: 0 <= i < j < |CrmTags()| ==> CrmTags()[i] != CrmTags()[j]
  {
    forall i | 0 <= i < 21
      ensures forall j :: i < j < 21 ==> CrmTag(i) != CrmTag(j)
    {
      CrmTagDistinctFrom(i);
    }
  }

  lemma CrmTagDistinctFrom(i: int)
    requires 0 <= i < 21
    ensures forall j :: i < j < 21 ==> CrmTag(i) != CrmTag(j)
  {
  }

  /**
   * The submission key whose field fills entry `i` of the CRM request; it
   * carries the same JSON tag as that entry.
   */
  function CrmKey(i: int): JsonKey {
    match i
    case 0 => EventDatetime
    case 1 => RequestId
    case 2 => SubdivisionsId
    case 3 => SubdivisionsName
    case 4 => FormName
    case 5 => IdForm
    case 6 => HostName
    case 7 => Division
    case 8 => Area
    case 9 => BrandName
    case 10 => CarModel
    case 11 => ClientId
    case 12 => MetricsType
    case 13 => ClientIp
    case 14 => ClientType
    case 15 => ClientCompanyName
    case 16 => ClientName
    case 17 => ClientEmail
    case 18 => ClientPhoneNumber
    case 19 => Commentary
    case _ => AgreementMailing
  }

  /** The booking field copied into entry `i` of the CRM request. */
  function BookingCrmValue(d: DataBooking, i: int): string {
    match i
    case 0 => d.timeRequest
    case 1 => d.requestId
    case 2 => d.subdivisionsId
    case 3 => d.subdivisionsName
    case 4 => d.formName
    case 5 => d.formId
    case 6 => d.hostName
    case 7 => d.division
    case 8 => d.area
    case 9 => d.brandName
    case 10 => d.carModel
    case 11 => d.clientId
    case 12 => d.metricsType
    case 13 => d.clientIp
    case 14 => d.typeClient
    case 15 => d.companyName
    case 16 => d.name
    case 17 => d.email
    case 18 => d.phoneNumber
    case 19 => d.comment
    case _ => d.consentMailing
  }

  /** The form field copied into entry `i` of the CRM request. */
  function FormsCrmValue(d: DataForms, i: int): string {
    match i
    case 0 => d.timeRequest
    case 1 => d.requestId
    case 2 => d.subdivisionsId
    case 3 => d.subdivisionsName
    case 4 => d.formName
    case 5 => d.formId
    case 6 => d.hostName
    case 7 => d.division
    case 8 => d.area
    case 9 => d.brandName
    case 10 => d.carModel
    case 11 => d.clientId
    case 12 => d.metricsType
    case 13 => d.clientIp
    case 14 => d.typeClient
    case 15 => d.companyName
    case 16 => d.name
    case 17 => d.email
    case 18 => d.phoneNumber
    case 19 => d.comment
    case _ => d.consentMailing
  }

  /** The CRM request built for a booking, as (key, value) entries. */
  function CrmPayloadBooking(d: DataBooking): seq<(string, string)> {
    seq(21, i => (CrmTag(i), BookingCrmValue(d, i)))
  }

  /** The CRM request built for a form, as (key, value) entries. */
  function CrmPayloadForms(d: DataForms): seq<(string, string)> {
    seq(21, i => (CrmTag(i), FormsCrmValue(d, i)))
  }

  /**
   * Both builders emit 21 entries under the same keys in the same order, so
   * the keys of either request are pairwise distinct.
   */
  lemma CrmPayloadKeys(b: DataBooking, f: DataForms)
    ensures |CrmPayloadBooking(b)| == |CrmPayloadForms(f)| == |CrmTags()|
    ensures forall i :: 0 <= i < |CrmTags()| ==>
      CrmPayloadBooking(b)[i].0 == CrmPayloadForms(f)[i].0 == CrmTags()[i]
  {
  }

  /**
   * Entry `i` of a booking's CRM request is keyed by the JSON tag of field
   * `CrmKey(i)`, and carries that field unchanged, except entry 11: the request's "ClientID"
   * carries the booking's "clientid_google" value, not its own "ClientID".
   */
  lemma BookingPayloadValues(d: DataBooking)
    ensures forall i :: 0 <= i < 21 ==> CrmPayloadBooking(d)[i].0 == JsonTag(CrmKey(i))
    ensures forall i :: 0 <= i < 21 && i != 11 ==>
      BookingText(d, CrmKey(i)) == Some(CrmPayloadBooking(d)[i].1)
    ensures CrmPayloadBooking(d)[11] == ("ClientID", d.clientId)
    ensures BookingText(d, ClientidGoogle) == Some(CrmPayloadBooking(d)[11].1)
    ensures CrmPayloadBooking(d)[16] == ("client_name", d.name)
  {
    CrmTagsFirst();
    CrmTagsMiddle();
    CrmTagsLast();
    BookingValuesBetween(d, 0, 11);
    BookingValuesBetween(d, 12, 21);
  }

  /** Entry `i`'s key is the JSON tag of the field `CrmKey(i)`, for the first, middle and last seven entries. */
  lemma CrmTagsFirst()
    ensures forall i :: 0 <= i < 7 ==> CrmTag(i) == JsonTag(CrmKey(i))
  {
  }

  lemma CrmTagsMiddle()
    ensures forall i :: 7 <= i < 14 ==> CrmTag(i) == JsonTag(CrmKey(i))
  {
  }

  lemma CrmTagsLast()
    ensures forall i :: 14 <= i < 21 ==> CrmTag(i) == JsonTag(CrmKey(i))
  {
  }

  lemma BookingValuesBetween(d: DataBooking, lo: int, hi: int)
    requires 0 <= lo <= hi <= 21 && (hi <= 11 || 12 <= lo)
    ensures forall i :: lo <= i < hi ==> BookingText(d, CrmKey(i)) == Some(BookingCrmValue(d, i))
  {
  }

  /**
   * Entry `i` of a form's CRM request is keyed by the JSON tag of field
   * `CrmKey(i)` and carries that field unchanged.
   */
  lemma FormsPayloadValues(d: DataForms)
    ensures forall i :: 0 <= i < 21 ==> CrmPayloadForms(d)[i].0 == JsonTag(CrmKey(i))
    ensures forall i :: 0 <= i < 21 ==>
      FormsValue(d, CrmKey(i)) == Text(CrmPayloadForms(d)[i].1)
    ensures CrmPayloadForms(d)[11] == ("ClientID", d.clientId)
    ensures CrmPayloadForms(d)[16] == ("client_name", d.name)
  {
    CrmTagsFirst();
    CrmTagsMiddle();
    CrmTagsLast();
    FormsValuesBetween(d, 0, 11);
    FormsValuesBetween(d, 11, 21);
  }

  lemma FormsValuesBetween(d: DataForms, lo: int, hi: int)
    requires 0 <= lo <= hi <= 21
    ensures forall i :: lo <= i < hi ==> FormsValue(d, CrmKey(i)) == Text(FormsCrmValue(d, i))
  {
  }
}
