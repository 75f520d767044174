/** The form validator's error map and what it says about a form. */
module FormsValidation {
  import opened Validation
  import opened Model

  /** The form as the validator sees it: a value for every key. */
  function FormsValues(d: DataForms): JsonKey -> Value {
    k => FormsValue(d, k)
  }

  /** Entry `i` of the form rule list fails exactly when its key breaks the field-by-field rule. */
  predicate FormsEntryAgrees(d: DataForms, i: int) {
    FailsAt(FormsValues(d), FormsSchema(), i) <==> 0 <= i < 29 && !FormsKeyOk(d, FormsRule(i).key)
  }

  /** The keys that have an entry in the form rule list. */
  predicate FormsRuled(k: JsonKey) {
    exists i :: 0 <= i < |FormsSchema()| && FormsSchema()[i].key == k
  }

  /**
   * Steps of `FormsEntriesAgree`, one rule entry each: proving every entry in a
   * single lemma is too large for the solver.
   */
  lemma FormsEntry0(d: DataForms)
    ensures FormsEntryAgrees(d, 0)
  {
  }

  lemma FormsEntry1(d: DataForms)
    ensures FormsEntryAgrees(d, 1)
  {
  }

  lemma FormsEntry2(d: DataForms)
    ensures FormsEntryAgrees(d, 2)
  {
  }

  lemma FormsEntry3(d: DataForms)
    ensures FormsEntryAgrees(d, 3)
  {
  }

  lemma FormsEntry4(d: DataForms)
    ensures FormsEntryAgrees(d, 4)
  {
  }

  lemma FormsEntry5(d: DataForms)
    ensures FormsEntryAgrees(d, 5)
  {
  }

  lemma FormsEntry6(d: DataForms)
    ensures FormsEntryAgrees(d, 6)
  {
  }

  lemma FormsEntry7(d: DataForms)
    ensures FormsEntryAgrees(d, 7)
  {
  }

  lemma FormsEntry8(d: DataForms)
    ensures FormsEntryAgrees(d, 8)
  {
  }

  lemma FormsEntry10(d: DataForms)
    ensures FormsEntryAgrees(d, 10)
  {
  }

  lemma FormsEntry11(d: DataForms)
    ensures FormsEntryAgrees(d, 11)
  {
  }

  lemma FormsEntry12(d: DataForms)
    ensures FormsEntryAgrees(d, 12)
  {
  }

  lemma FormsEntry13(d: DataForms)
    ensures FormsEntryAgrees(d, 13)
  {
  }

  lemma FormsEntry14(d: DataForms)
    ensures FormsEntryAgrees(d, 14)
  {
  }

  lemma FormsEntry15(d: DataForms)
    ensures FormsEntryAgrees(d, 15)
  {
  }

  lemma FormsEntry16(d: DataForms)
    ensures FormsEntryAgrees(d, 16)
  {
  }

  lemma FormsEntry17(d: DataForms)
    ensures FormsEntryAgrees(d, 17)
  {
  }

  lemma FormsEntry18(d: DataForms)
    ensures FormsEntryAgrees(d, 18)
  {
  }

  lemma FormsEntry19(d: DataForms)
    ensures FormsEntryAgrees(d, 19)
  {
  }

  lemma FormsEntry20(d: DataForms)
    ensures FormsEntryAgrees(d, 20)
  {
  }

  lemma FormsEntry21(d: DataForms)
    ensures FormsEntryAgrees(d, 21)
  {
  }

  lemma FormsEntry22(d: DataForms)
    ensures FormsEntryAgrees(d, 22)
  {
  }

  lemma FormsEntry23(d: DataForms)
    ensures FormsEntryAgrees(d, 23)
  {
  }

  lemma FormsEntry25(d: DataForms)
    ensures FormsEntryAgrees(d, 25)
  {
  }

  lemma FormsEntry26(d: DataForms)
    ensures FormsEntryAgrees(d, 26)
  {
  }

  lemma FormsEntry27(d: DataForms)
    ensures FormsEntryAgrees(d, 27)
  {
    var v := Text(d.actionType);
    assert FirstFailure(v, [Required, In(FormActions)]).None? <==> Passes(Required, v) && Passes(In(FormActions), v);
  }

  lemma FormsEntry28(d: DataForms)
    ensures FormsEntryAgrees(d, 28)
  {
  }

  /**
   * The two metrics_type entries: the first fails on an empty value, the
   * second on any other value than "yandex"; one of them fails exactly when
   * the key's demand is broken.
   */
  lemma FormsMetricsTypeEntries(d: DataForms)
    ensures FailsAt(FormsValues(d), FormsSchema(), 9) <==> d.metricsType == ""
    ensures FailsAt(FormsValues(d), FormsSchema(), 24) <==> d.metricsType != "" && d.metricsType !in MetricsTypes
    ensures FormsRule(9).key == MetricsType && FormsRule(24).key == MetricsType
  {
    FormsMetricsTypeRequired(d);
  }

  lemma FormsMetricsTypeRequired(d: DataForms)
    ensures FailsAt(FormsValues(d), FormsSchema(), 9) <==> d.metricsType == ""
  {
  }

  lemma FormsRuledKeys0()
    ensures FormsRuled(RequestId)
    ensures FormsRuled(SubdivisionsId)
    ensures FormsRuled(SubdivisionsName)
    ensures FormsRuled(FormName)
    ensures FormsRuled(IdForm)
    ensures FormsRuled(HostName)
    ensures FormsRuled(BrandName)
    ensures FormsRuled(CarModel)
    ensures FormsRuled(ClientId)
    ensures FormsRuled(MetricsType)
    ensures FormsRuled(ClientName)
  {
    assert FormsSchema()[0].key == RequestId;
    assert FormsSchema()[1].key == SubdivisionsId;
    assert FormsSchema()[2].key == SubdivisionsName;
    assert FormsSchema()[3].key == FormName;
    assert FormsSchema()[4].key == IdForm;
    assert FormsSchema()[5].key == HostName;
    assert FormsSchema()[6].key == BrandName;
    assert FormsSchema()[7].key == CarModel;
    assert FormsSchema()[8].key == ClientId;
    assert FormsSchema()[9].key == MetricsType;
    assert FormsSchema()[10].key == ClientName;
  }

  lemma FormsRuledKeys1()
    ensures FormsRuled(ClientEmail)
    ensures FormsRuled(ClientPhoneNumber)
    ensures FormsRuled(UrlMod)
    ensures FormsRuled(Modification)
    ensures FormsRuled(ModFamily)
    ensures FormsRuled(ModBodyType)
    ensures FormsRuled(ModEngine)
    ensures FormsRuled(ModBase)
    ensures FormsRuled(ModTuning)
    ensures FormsRuled(Vin)
    ensures FormsRuled(Price)
  {
    assert FormsSchema()[11].key == ClientEmail;
    assert FormsSchema()[12].key == ClientPhoneNumber;
    assert FormsSchema()[13].key == UrlMod;
    assert FormsSchema()[14].key == Modification;
    assert FormsSchema()[15].key == ModFamily;
    assert FormsSchema()[16].key == ModBodyType;
    assert FormsSchema()[17].key == ModEngine;
    assert FormsSchema()[18].key == ModBase;
    assert FormsSchema()[19].key == ModTuning;
    assert FormsSchema()[20].key == Vin;
    assert FormsSchema()[21].key == Price;
  }

  lemma FormsRuledKeys2()
    ensures FormsRuled(Division)
    ensures FormsRuled(Area)
    ensures FormsRuled(ClientType)
    ensures FormsRuled(EventDatetime)
    ensures FormsRuled(ActionType)
    ensures FormsRuled(AgreementMailing)
  {
    assert FormsSchema()[22].key == Division;
    assert FormsSchema()[23].key == Area;
    assert FormsSchema()[25].key == ClientType;
    assert FormsSchema()[26].key == EventDatetime;
    assert FormsSchema()[27].key == ActionType;
    assert FormsSchema()[28].key == AgreementMailing;
  }

  lemma FormsEntriesAgree(d: DataForms)
    ensures forall i :: 0 <= i < |FormsSchema()| && i != 9 && i != 24 ==> FormsEntryAgrees(d, i)
  {
    FormsEntry0(d);
    FormsEntry1(d);
    FormsEntry2(d);
    FormsEntry3(d);
    FormsEntry4(d);
    FormsEntry5(d);
    FormsEntry6(d);
    FormsEntry7(d);
    FormsEntry8(d);
    FormsEntry10(d);
    FormsEntry11(d);
    FormsEntry12(d);
    FormsEntry13(d);
    FormsEntry14(d);
    FormsEntry15(d);
    FormsEntry16(d);
    FormsEntry17(d);
    FormsEntry18(d);
    FormsEntry19(d);
    FormsEntry20(d);
    FormsEntry21(d);
    FormsEntry22(d);
    FormsEntry23(d);
    FormsEntry25(d);
    FormsEntry26(d);
    FormsEntry27(d);
    FormsEntry28(d);
    forall i | 0 <= i < |FormsSchema()| && i != 9 && i != 24
      ensures FormsEntryAgrees(d, i)
    {
      assert i == 0 || i == 1 || i == 2 || i == 3 || i == 4 || i == 5 || i == 6 || i == 7 || i == 8 || i == 10 || i == 11 || i == 12 || i == 13 || i == 14 || i == 15 || i == 16 || i == 17 || i == 18 || i == 19 || i == 20 || i == 21 || i == 22 || i == 23 || i == 25 || i == 26 || i == 27 || i == 28;
    }
  }

  /** Every key other than metrics_type whose field-by-field rule can fail has an entry in the form rule list. */
  lemma FormsKeysCovered(d: DataForms)
    ensures forall k :: !FormsKeyOk(d, k) ==> FormsRuled(k)
  {
    FormsRuledKeys0();
    FormsRuledKeys1();
    FormsRuledKeys2();
    forall k | !FormsKeyOk(d, k)
      ensures FormsRuled(k)
    {
      match k
      case RequestId =>
      case SubdivisionsId =>
      case SubdivisionsName =>
      case FormName =>
      case IdForm =>
      case HostName =>
      case BrandName =>
      case CarModel =>
      case ClientId =>
      case MetricsType =>
      case ClientName =>
      case ClientEmail =>
      case ClientPhoneNumber =>
      case UrlMod =>
      case Modification =>
      case ModFamily =>
      case ModBodyType =>
      case ModEngine =>
      case ModBase =>
      case ModTuning =>
      case Vin =>
      case Price =>
      case Division =>
      case Area =>
      case ClientType =>
      case EventDatetime =>
      case ActionType =>
      case AgreementMailing =>
      case _ =>
    }
  }

  /**
   * `DataForms.ValidateDataForms`: the error map, keyed by JSON tag, of a form.
   * Which keys it holds is stated by `FormsErrorKeys`.
   */
  function ValidateDataForms(d: DataForms): map<JsonKey, Rule> {
    ValidateStruct(FormsValues(d), FormsSchema())
  }

  /** A key is in a form's error map exactly when its field breaks its rule. */
  lemma FormsErrorKeys(d: DataForms)
    ensures forall k :: k in ValidateDataForms(d) <==> !FormsKeyOk(d, k)
  {
    forall k | k in ValidateDataForms(d)
      ensures !FormsKeyOk(d, k)
    {
      FormsErrorSound(d, k);
    }
    forall k | !FormsKeyOk(d, k)
      ensures k in ValidateDataForms(d)
    {
      FormsErrorComplete(d, k);
    }
  }

  lemma FormsErrorSound(d: DataForms, k: JsonKey)
    requires k in ValidateDataForms(d)
    ensures !FormsKeyOk(d, k)
  {
    var i :| FailsAt(FormsValues(d), FormsSchema(), i) && FormsSchema()[i].key == k;
    FailingEntryBreaksRule(d, i);
  }

  lemma FailingEntryBreaksRule(d: DataForms, i: int)
    requires FailsAt(FormsValues(d), FormsSchema(), i)
    ensures !FormsKeyOk(d, FormsRule(i).key)
  {
    if i == 9 || i == 24 {
      FormsMetricsTypeEntries(d);
    } else {
      FormsEntriesAgree(d);
      assert FormsEntryAgrees(d, i);
    }
  }

  lemma FormsErrorComplete(d: DataForms, k: JsonKey)
    requires !FormsKeyOk(d, k)
    ensures k in ValidateDataForms(d)
  {
    var values, schema := FormsValues(d), FormsSchema();
    if k == MetricsType {
      FormsMetricsTypeEntries(d);
      assert FailsAt(values, schema, 9) || FailsAt(values, schema, 24);
    } else {
      FormsKeysCovered(d);
      FormsEntriesAgree(d);
      var i :| 0 <= i < |schema| && schema[i].key == k;
      assert FormsEntryAgrees(d, i);
      assert FailsAt(values, schema, i);
    }
  }

  /** A form passes validation exactly when every key meets its field-by-field rule. */
  lemma FormsValidIff(d: DataForms)
    ensures ValidateDataForms(d) == map[] <==> forall k :: FormsKeyOk(d, k)
  {
    FormsErrorKeys(d);
    var errs := ValidateDataForms(d);
    if errs != map[] {
      var k :| k in errs;
      assert !FormsKeyOk(d, k);
    }
  }

  /** A form passes validation only if its action_type is exactly "form" and its metrics_type exactly "yandex". */
  lemma FormValidOnlyIf(d: DataForms)
    requires ValidateDataForms(d) == map[]
    ensures d.actionType == "form" && d.metricsType == "yandex"
  {
    FormsErrorKeys(d);
    var errs := ValidateDataForms(d);
    assert ActionType !in errs && MetricsType !in errs;
    assert FormsKeyOk(d, ActionType) && FormsKeyOk(d, MetricsType);
  }
}
