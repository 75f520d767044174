/** The booking validator's error map and what it says about a booking. */
module BookingValidation {
  import opened Validation
  import opened Model
  import GoTime

  /** The booking as the validator sees it: a value for every key. */
  function BookingValues(d: DataBooking): JsonKey -> Value {
    k => BookingValue(d, k)
  }

  /** Entry `i` of the booking rule list fails exactly when its key breaks the field-by-field rule. */
  predicate BookingEntryAgrees(d: DataBooking, i: int) {
    FailsAt(BookingValues(d), BookingSchema(), i) <==> 0 <= i < 35 && !BookingKeyOk(d, BookingRule(i).key)
  }

  /** The keys that have an entry in the booking rule list. */
  predicate BookingRuled(k: JsonKey) {
    exists i :: 0 <= i < |BookingSchema()| && BookingSchema()[i].key == k
  }

  /**
   * Steps of `BookingEntriesAgree`, one rule entry each: proving every entry in a
   * single lemma is too large for the solver.
   */
  lemma BookingEntry0(d: DataBooking)
    ensures BookingEntryAgrees(d, 0)
  {
  }

  lemma BookingEntry1(d: DataBooking)
    ensures BookingEntryAgrees(d, 1)
  {
  }

  lemma BookingEntry2(d: DataBooking)
    ensures BookingEntryAgrees(d, 2)
  {
  }

  lemma BookingEntry3(d: DataBooking)
    ensures BookingEntryAgrees(d, 3)
  {
  }

  lemma BookingEntry4(d: DataBooking)
    ensures BookingEntryAgrees(d, 4)
  {
  }

  lemma BookingEntry5(d: DataBooking)
    ensures BookingEntryAgrees(d, 5)
  {
  }

  lemma BookingEntry6(d: DataBooking)
    ensures BookingEntryAgrees(d, 6)
  {
  }

  lemma BookingEntry7(d: DataBooking)
    ensures BookingEntryAgrees(d, 7)
  {
  }

  lemma BookingEntry8(d: DataBooking)
    ensures BookingEntryAgrees(d, 8)
  {
  }

  lemma BookingEntry9(d: DataBooking)
    ensures BookingEntryAgrees(d, 9)
  {
  }

  lemma BookingEntry10(d: DataBooking)
    ensures BookingEntryAgrees(d, 10)
  {
  }

  lemma BookingEntry11(d: DataBooking)
    ensures BookingEntryAgrees(d, 11)
  {
  }

  lemma BookingEntry12(d: DataBooking)
    ensures BookingEntryAgrees(d, 12)
  {
  }

  lemma BookingEntry13(d: DataBooking)
    ensures BookingEntryAgrees(d, 13)
  {
  }

  lemma BookingEntry14(d: DataBooking)
    ensures BookingEntryAgrees(d, 14)
  {
  }

  lemma BookingEntry15(d: DataBooking)
    ensures BookingEntryAgrees(d, 15)
  {
  }

  lemma BookingEntry16(d: DataBooking)
    ensures BookingEntryAgrees(d, 16)
  {
  }

  lemma BookingEntry17(d: DataBooking)
    ensures BookingEntryAgrees(d, 17)
  {
  }

  lemma BookingEntry18(d: DataBooking)
    ensures BookingEntryAgrees(d, 18)
  {
  }

  lemma BookingEntry19(d: DataBooking)
    ensures BookingEntryAgrees(d, 19)
  {
  }

  lemma BookingEntry20(d: DataBooking)
    ensures BookingEntryAgrees(d, 20)
  {
  }

  lemma BookingEntry21(d: DataBooking)
    ensures BookingEntryAgrees(d, 21)
  {
  }

  lemma BookingEntry22(d: DataBooking)
    ensures BookingEntryAgrees(d, 22)
  {
  }

  lemma BookingEntry23(d: DataBooking)
    ensures BookingEntryAgrees(d, 23)
  {
  }

  lemma BookingEntry24(d: DataBooking)
    ensures BookingEntryAgrees(d, 24)
  {
  }

  lemma BookingEntry25(d: DataBooking)
    ensures BookingEntryAgrees(d, 25)
  {
  }

  lemma BookingEntry26(d: DataBooking)
    ensures BookingEntryAgrees(d, 26)
  {
  }

  lemma BookingEntry27(d: DataBooking)
    ensures BookingEntryAgrees(d, 27)
  {
  }

  lemma BookingEntry28(d: DataBooking)
    ensures BookingEntryAgrees(d, 28)
  {
  }

  lemma BookingEntry29(d: DataBooking)
    ensures BookingEntryAgrees(d, 29)
  {
  }

  lemma BookingEntry30(d: DataBooking)
    ensures BookingEntryAgrees(d, 30)
  {
  }

  lemma BookingEntry31(d: DataBooking)
    ensures BookingEntryAgrees(d, 31)
  {
  }

  lemma BookingEntry32(d: DataBooking)
    ensures BookingEntryAgrees(d, 32)
  {
  }

  lemma BookingEntry33(d: DataBooking)
    ensures BookingEntryAgrees(d, 33)
  {
  }

  lemma BookingEntry34(d: DataBooking)
    ensures BookingEntryAgrees(d, 34)
  {
    var v := Text(d.actionType);
    assert FirstFailure(v, [Required, In(BookingActions)]).None? <==> Passes(Required, v) && Passes(In(BookingActions), v);
  }

  lemma BookingRuledKeys0()
    ensures BookingRuled(RequestId)
    ensures BookingRuled(UniqModCode)
    ensures BookingRuled(Modification)
    ensures BookingRuled(ModFamily)
    ensures BookingRuled(ModBodyType)
    ensures BookingRuled(ModEngine)
    ensures BookingRuled(ModBase)
    ensures BookingRuled(ModTuning)
    ensures BookingRuled(Vin)
    ensures BookingRuled(Price)
    ensures BookingRuled(ClientType)
  {
    assert BookingSchema()[0].key == RequestId;
    assert BookingSchema()[1].key == UniqModCode;
    assert BookingSchema()[2].key == Modification;
    assert BookingSchema()[3].key == ModFamily;
    assert BookingSchema()[4].key == ModBodyType;
    assert BookingSchema()[5].key == ModEngine;
    assert BookingSchema()[6].key == ModBase;
    assert BookingSchema()[7].key == ModTuning;
    assert BookingSchema()[8].key == Vin;
    assert BookingSchema()[9].key == Price;
    assert BookingSchema()[10].key == ClientType;
  }

  lemma BookingRuledKeys1()
    ensures BookingRuled(Inn)
    ensures BookingRuled(Kpp)
    ensures BookingRuled(Ogrn)
    ensures BookingRuled(RegAddressCode)
    ensures BookingRuled(DeliveryAddressCode)
    ensures BookingRuled(Hid)
    ensures BookingRuled(ClientCompanyName)
    ensures BookingRuled(Surname)
    ensures BookingRuled(ClientName)
    ensures BookingRuled(Patronymic)
    ensures BookingRuled(DateOfBirth)
  {
    assert BookingSchema()[11].key == Inn;
    assert BookingSchema()[12].key == Kpp;
    assert BookingSchema()[13].key == Ogrn;
    assert BookingSchema()[14].key == RegAddressCode;
    assert BookingSchema()[15].key == DeliveryAddressCode;
    assert BookingSchema()[16].key == Hid;
    assert BookingSchema()[17].key == ClientCompanyName;
    assert BookingSchema()[18].key == Surname;
    assert BookingSchema()[19].key == ClientName;
    assert BookingSchema()[20].key == Patronymic;
    assert BookingSchema()[21].key == DateOfBirth;
  }

  lemma BookingRuledKeys2()
    ensures BookingRuled(PassportSer)
    ensures BookingRuled(PassportNumber)
    ensures BookingRuled(ClientEmail)
    ensures BookingRuled(ClientPhoneNumber)
    ensures BookingRuled(EventDatetime)
    ensures BookingRuled(AgreementMailing)
    ensures BookingRuled(Division)
    ensures BookingRuled(Area)
    ensures BookingRuled(MetricsType)
    ensures BookingRuled(ActionType)
  {
    assert BookingSchema()[22].key == PassportSer;
    assert BookingSchema()[23].key == PassportNumber;
    assert BookingSchema()[24].key == ClientEmail;
    assert BookingSchema()[25].key == ClientPhoneNumber;
    assert BookingSchema()[26].key == EventDatetime;
    assert BookingSchema()[28].key == AgreementMailing;
    assert BookingSchema()[29].key == Division;
    assert BookingSchema()[30].key == Area;
    assert BookingSchema()[31].key == MetricsType;
    assert BookingSchema()[34].key == ActionType;
  }

  lemma BookingEntriesAgree(d: DataBooking)
    ensures forall i :: 0 <= i < |BookingSchema()| ==> BookingEntryAgrees(d, i)
  {
    BookingEntry0(d);
    BookingEntry1(d);
    BookingEntry2(d);
    BookingEntry3(d);
    BookingEntry4(d);
    BookingEntry5(d);
    BookingEntry6(d);
    BookingEntry7(d);
    BookingEntry8(d);
    BookingEntry9(d);
    BookingEntry10(d);
    BookingEntry11(d);
    BookingEntry12(d);
    BookingEntry13(d);
    BookingEntry14(d);
    BookingEntry15(d);
    BookingEntry16(d);
    BookingEntry17(d);
    BookingEntry18(d);
    BookingEntry19(d);
    BookingEntry20(d);
    BookingEntry21(d);
    BookingEntry22(d);
    BookingEntry23(d);
    BookingEntry24(d);
    BookingEntry25(d);
    BookingEntry26(d);
    BookingEntry27(d);
    BookingEntry28(d);
    BookingEntry29(d);
    BookingEntry30(d);
    BookingEntry31(d);
    BookingEntry32(d);
    BookingEntry33(d);
    BookingEntry34(d);
    forall i | 0 <= i < |BookingSchema()|
      ensures BookingEntryAgrees(d, i)
    {
      assert i == 0 || i == 1 || i == 2 || i == 3 || i == 4 || i == 5 || i == 6 || i == 7 || i == 8 || i == 9 || i == 10 || i == 11 || i == 12 || i == 13 || i == 14 || i == 15 || i == 16 || i == 17 || i == 18 || i == 19 || i == 20 || i == 21 || i == 22 || i == 23 || i == 24 || i == 25 || i == 26 || i == 27 || i == 28 || i == 29 || i == 30 || i == 31 || i == 32 || i == 33 || i == 34;
    }
  }

  /** Every key whose field-by-field rule can fail has an entry in the booking rule list. */
  lemma BookingKeysCovered(d: DataBooking)
    ensures forall k :: !BookingKeyOk(d, k) ==> BookingRuled(k)
  {
    BookingRuledKeys0();
    BookingRuledKeys1();
    BookingRuledKeys2();
    forall k | !BookingKeyOk(d, k)
      ensures BookingRuled(k)
    {
      match k
      case RequestId =>
      case UniqModCode =>
      case Modification =>
      case ModFamily =>
      case ModBodyType =>
      case ModEngine =>
      case ModBase =>
      case ModTuning =>
      case Vin =>
      case Price =>
      case ClientType =>
      case Inn =>
      case Kpp =>
      case Ogrn =>
      case RegAddressCode =>
      case DeliveryAddressCode =>
      case Hid =>
      case ClientCompanyName =>
      case Surname =>
      case ClientName =>
      case Patronymic =>
      case DateOfBirth =>
      case PassportSer =>
      case PassportNumber =>
      case ClientEmail =>
      case ClientPhoneNumber =>
      case EventDatetime =>
      case AgreementMailing =>
      case Division =>
      case Area =>
      case MetricsType =>
      case ActionType =>
      case _ =>
    }
  }

  /**
   * `DataBooking.Validate`: the error map, keyed by JSON tag, of a booking.
   * Which keys it holds is stated by `BookingErrorKeys`.
   */
  function ValidateDataBooking(d: DataBooking): map<JsonKey, Rule> {
    ValidateStruct(BookingValues(d), BookingSchema())
  }

  /** A key is in a booking's error map exactly when its field breaks its rule. */
  lemma BookingErrorKeys(d: DataBooking)
    ensures forall k :: k in ValidateDataBooking(d) <==> !BookingKeyOk(d, k)
  {
    BookingEntriesAgree(d);
    BookingKeysCovered(d);
    var values, schema := BookingValues(d), BookingSchema();
    var errs := ValidateStruct(values, schema);
    forall k
      ensures k in errs <==> !BookingKeyOk(d, k)
    {
      if k in errs {
        var i :| FailsAt(values, schema, i) && schema[i].key == k;
        assert BookingEntryAgrees(d, i);
      }
      if !BookingKeyOk(d, k) {
        var i :| 0 <= i < |schema| && schema[i].key == k;
        assert BookingEntryAgrees(d, i);
      }
    }
  }

  /** Between a repeated entry and the entry it repeats, no other entry names the same key. */
  lemma BookingRepeatGaps()
    ensures forall i :: 26 < i < 33 ==> BookingRule(i).key != EventDatetime
    ensures forall i :: 10 < i < 32 ==> BookingRule(i).key != ClientType
    ensures forall i :: 20 < i < 27 ==> BookingRule(i).key != Patronymic
  {
    forall i | 10 < i < 33
      ensures BookingRule(i).key != EventDatetime || i == 26
      ensures BookingRule(i).key != ClientType || i == 32
      ensures BookingRule(i).key != Patronymic || i == 20 || i == 27
    {
      assert i == 11 || i == 12 || i == 13 || i == 14 || i == 15 || i == 16 || i == 17 || i == 18 || i == 19 || i == 20 || i == 21 || i == 22 || i == 23 || i == 24 || i == 25 || i == 26 || i == 27 || i == 28 || i == 29 || i == 30 || i == 31 || i == 32;
    }
  }

  /** Taking out entries 33, 32 and 27, in that order, leaves the rule list without its repeats. */
  lemma WithoutRepeatEntries(s: seq<Field<JsonKey>>)
    requires |s| == 35
    ensures Without(Without(Without(s, 33), 32), 27) == s[..27] + s[28..32] + s[34..]
  {
    var w := Without(Without(Without(s, 33), 32), 27);
    var t := s[..27] + s[28..32] + s[34..];
    assert |w| == |t| == 32;
    forall i | 0 <= i < 32
      ensures w[i] == t[i]
    {
      if i < 27 {
        assert t[i] == s[i];
      } else if i < 31 {
        assert t[i] == s[i + 1];
      } else {
        assert t[i] == s[34];
      }
    }
  }

  lemma DropSecondEventDatetime(value: JsonKey -> Value)
    ensures ValidateStruct(value, Without(BookingSchema(), 33)) == ValidateStruct(value, BookingSchema())
  {
    var s := BookingSchema();
    BookingRepeatGaps();
    assert s[26] == s[33];
    RepeatedFieldIsRedundant(value, s, 26, 33);
  }

  lemma DropSecondClientType(value: JsonKey -> Value)
    ensures var w := Without(BookingSchema(), 33);
      ValidateStruct(value, Without(w, 32)) == ValidateStruct(value, w)
  {
    var w := Without(BookingSchema(), 33);
    BookingRepeatGaps();
    assert w[10] == w[32];
    assert forall i :: 10 < i < 32 ==> w[i].key != w[32].key;
    RepeatedFieldIsRedundant(value, w, 10, 32);
  }

  lemma DropSecondPatronymic(value: JsonKey -> Value)
    ensures var w := Without(Without(BookingSchema(), 33), 32);
      ValidateStruct(value, Without(w, 27)) == ValidateStruct(value, w)
  {
    var w := Without(Without(BookingSchema(), 33), 32);
    BookingRepeatGaps();
    assert w[20] == w[27];
    assert forall i :: 20 < i < 27 ==> w[i].key != w[27].key;
    RepeatedFieldIsRedundant(value, w, 20, 27);
  }

  /**
   * The repeated patronymic, client_type and event_datetime entries of the
   * booking rule list change nothing: validating with or without them gives
   * the same error map, whatever the field values.
   */
  lemma BookingRepeatsRedundant(value: JsonKey -> Value)
    ensures ValidateStruct(value, BookingSchemaWithoutRepeats()) == ValidateStruct(value, BookingSchema())
  {
    DropSecondEventDatetime(value);
    DropSecondClientType(value);
    DropSecondPatronymic(value);
    WithoutRepeatEntries(BookingSchema());
  }

  /** A booking passes validation exactly when every key meets its field-by-field rule. */
  lemma BookingValidIff(d: DataBooking)
    ensures ValidateDataBooking(d) == map[] <==> forall k :: BookingKeyOk(d, k)
  {
    BookingErrorKeys(d);
    var errs := ValidateDataBooking(d);
    if errs != map[] {
      var k :| k in errs;
      assert !BookingKeyOk(d, k);
    }
  }

  /** action_type is required and must be one of form, bill, acquiring. */
  lemma BookingActionTypeRule(d: DataBooking)
    ensures ActionType !in ValidateDataBooking(d) <==> d.actionType in ["form", "bill", "acquiring"]
  {
    BookingErrorKeys(d);
    assert ActionType !in ValidateDataBooking(d) <==> BookingKeyOk(d, ActionType);
  }

  /** A required number is rejected when it is zero: uniq_mod_code and price. */
  lemma BookingZeroNumbersRejected(d: DataBooking)
    ensures UniqModCode in ValidateDataBooking(d) <==> d.uniqModCode == 0
    ensures Price in ValidateDataBooking(d) <==> d.priceWithNds == 0
  {
    BookingErrorKeys(d);
    var errs := ValidateDataBooking(d);
    assert UniqModCode in errs <==> !BookingKeyOk(d, UniqModCode);
    assert Price in errs <==> !BookingKeyOk(d, Price);
  }
}
