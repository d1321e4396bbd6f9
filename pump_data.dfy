/**
 * The measurement record the pump driver fills in, and its status enumeration
 * (pump_data/medtronic_measurement_data.py).
 */
module Wrappers {

  /** Python's `None` or a present value. */
  datatype Option<+T> = None | Some(value: T)
}

module PumpData {
  import opened Wrappers

  /** `MedtronicDataStatus`: the enumeration has exactly these two members. */
  datatype MedtronicDataStatus = Invalid | Valid

  /** The integer value of each member: `invalid = 0`, `valid = 1`. */
  function StatusValue(s: MedtronicDataStatus): (v: int)
    ensures s == Invalid <==> v == 0
    ensures s == Valid <==> v == 1
  {
    match s
    case Invalid => 0
    case Valid => 1
  }

  /** Lookup by value, `MedtronicDataStatus(v)`: a value that names no member is rejected. */
  function StatusFromValue(v: int): (r: Option<MedtronicDataStatus>)
    ensures r.Some? <==> v == 0 || v == 1
    ensures r.Some? ==> StatusValue(r.value) == v
  {
    if v == 0 then Some(Invalid) else if v == 1 then Some(Valid) else None
  }

  /** Value and lookup are inverse: the enumeration is exactly {invalid = 0, valid = 1}. */
  lemma StatusValueRoundTrip(s: MedtronicDataStatus)
    ensures StatusFromValue(StatusValue(s)) == Some(s)
  {
  }

  /**
   * `MedtronicMeasurementData`. Python floats are modelled as reals; the timestamp is
   * `None` until the driver sets it, hence an Option of integer seconds.
   */
  datatype MedtronicMeasurementData = MedtronicMeasurementData(
    bglValue: int,
    trend: string,
    activeInsulin: real,
    currentBasalRate: real,
    temporaryBasalPercentage: int,
    batteryLevel: int,
    insulinUnitsRemaining: int,
    status: MedtronicDataStatus,
    timestamp: Option<int>)

  /** The record built with every field left at its declared default. */
  function DefaultMeasurement(): (m: MedtronicMeasurementData)
    ensures m.bglValue == 0 && m.trend == ""
    ensures m.activeInsulin == 0.0 && m.currentBasalRate == 0.0
    ensures m.temporaryBasalPercentage == 0 && m.batteryLevel == 0 && m.insulinUnitsRemaining == 0
    ensures m.status == Invalid
    ensures m.timestamp == None
  {
    MedtronicMeasurementData(0, "", 0.0, 0.0, 0, 0, 0, Invalid, None)
  }

  /**
   * `_data_is_valid` as evidently intended: a measurement is surfaced only when its
   * status member is `valid`.
   */
  function DataIsValid(m: MedtronicMeasurementData): (r: bool)
    ensures r <==> m.status == Valid
    ensures r <==> StatusValue(m.status) == 1
  {
    m.status == Valid
  }

  /** A default record is never surfaced as real data. */
  lemma DefaultIsNotValid()
    ensures !DataIsValid(DefaultMeasurement())
  {
  }

  /**
   * The two kinds of Python value that the comparison in `_data_is_valid` puts side by
   * side: a measurement record and an enumeration member. Python's `==` between a
   * dataclass instance and an Enum member of another class is false.
   */
  datatype PyValue = RecordValue(record: MedtronicMeasurementData) | StatusMember(member: MedtronicDataStatus)

  /**
   * `_data_is_valid` as written: the whole record is compared with `MedtronicDataStatus.valid`,
   * so the check fails for every record.
   */
  function DataIsValidAsWritten(m: MedtronicMeasurementData): (r: bool)
    ensures !r
  {
    RecordValue(m) == StatusMember(Valid)
  }

  /**
   * The comparison as written rejects every record whose status is `valid`, which the
   * corrected check accepts; the default record with its status set to valid is one.
   */
  lemma AsWrittenRejectsValidRecord(m: MedtronicMeasurementData)
    requires m.status == Valid
    ensures DataIsValid(m) && !DataIsValidAsWritten(m)
  {
  }
}
