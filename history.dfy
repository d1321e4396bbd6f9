/**
 * The pump history events the connector correlates, and the pure predicates of
 * pump_connector/pump_connector.py over one event: freshness, the ignore rule,
 * the set-change rule and the event id.
 */
module History {

  newtype byte = x: int | 0 <= x < 256

  /**
   * The history event classes the connector distinguishes by `type(event)`. Every event
   * carries its timestamp (integer seconds) and its raw payload `eventData`; the two
   * delivery events also carry `suspendReasonText`. `Other` stands for every other class.
   */
  datatype HistoryEvent =
    | AlarmNotification(timestamp: int, eventData: seq<byte>)
    | AlarmCleared(timestamp: int, eventData: seq<byte>)
    | DeliveryStopped(timestamp: int, eventData: seq<byte>, suspendReasonText: string)
    | DeliveryRestarted(timestamp: int, eventData: seq<byte>, suspendReasonText: string)
    | Other(timestamp: int, eventData: seq<byte>)

  /** Events at least this many seconds old are stale (15 minutes). */
  const FreshnessWindow: int := 15 * 60

  const PredictedLowGlucoseSuspend: string := "Predicted low glucose suspend"
  const LowGlucoseAutoResume: string := "Low glucose auto resume - preset glucose reached"
  const SetChangeSuspend: string := "Set change suspend"

  /** `_is_pump_event_new`: the event is younger than the freshness window (strict). */
  function IsPumpEventNew(e: HistoryEvent, now: int): (r: bool)
    ensures r <==> e.timestamp > now - FreshnessWindow
  {
    now - e.timestamp < FreshnessWindow
  }

  /**
   * `_events_to_ignore`: a delivery stop for predicted low glucose, or an automatic
   * resume once the preset glucose is reached. Only delivery events are ever ignored.
   */
  function EventsToIgnore(e: HistoryEvent): (r: bool)
    ensures r ==> e.DeliveryStopped? || e.DeliveryRestarted?
    ensures r ==>
              || (e.DeliveryStopped? && e.suspendReasonText == PredictedLowGlucoseSuspend)
              || (e.DeliveryRestarted? && e.suspendReasonText == LowGlucoseAutoResume)
  {
    match e
    case DeliveryStopped(_, _, reason) => reason == PredictedLowGlucoseSuspend
    case DeliveryRestarted(_, _, reason) => reason == LowGlucoseAutoResume
    case _ => false
  }

  /** The test inside `_get_set_change_timestamp`: a delivery stop whose reason is exactly a set change. */
  function IsSetChange(e: HistoryEvent): (r: bool)
    ensures r ==> e.DeliveryStopped? && e.suspendReasonText == SetChangeSuspend
    ensures r ==> !EventsToIgnore(e)
  {
    e.DeliveryStopped? && e.suspendReasonText == SetChangeSuspend
  }

  /**
   * The payload bytes the event id is made of: `eventData[0x0B:][0:2]`, with Python's
   * clamping of slices that run past the end.
   */
  function IdBytes(e: HistoryEvent): seq<byte>
  {
    var data := e.eventData;
    if |data| <= 0x0B then [] else data[0x0B..if |data| < 0x0D then |data| else 0x0D]
  }

  const HexDigits: string := "0123456789abcdef"

  /** `binascii.hexlify` of one byte: two lower-case hex digits, high nibble first. */
  function HexByte(b: byte): (r: string)
    ensures |r| == 2 && r[0] in HexDigits && r[1] in HexDigits
  {
    [HexDigits[b as int / 16], HexDigits[b as int % 16]]
  }

  /** `binascii.hexlify` of a byte string. */
  function Hex(bs: seq<byte>): (r: string)
    ensures |r| == 2 * |bs|
    ensures forall i :: 0 <= i < |r| ==> r[i] in HexDigits
  {
    if bs == [] then [] else HexByte(bs[0]) + Hex(bs[1..])
  }

  /** `_get_pump_event_id`: the lower-case hex of the id bytes, at most four digits. */
  function PumpEventId(e: HistoryEvent): string
  {
    Hex(IdBytes(e))
  }

  /** The id bytes are payload bytes 0x0B and 0x0C, as far as the payload reaches. */
  lemma IdBytesAreSlice(e: HistoryEvent)
    ensures |IdBytes(e)| <= 2
    ensures |e.eventData| >= 0x0D ==> IdBytes(e) == e.eventData[0x0B..0x0D]
    ensures |e.eventData| == 0x0C ==> IdBytes(e) == [e.eventData[0x0B]]
    ensures |e.eventData| <= 0x0B ==> IdBytes(e) == []
  {
  }

  /** An event id is at most four lower-case hex digits, two per id byte. */
  lemma PumpEventIdIsHex(e: HistoryEvent)
    ensures |PumpEventId(e)| == 2 * |IdBytes(e)| <= 4
    ensures forall i :: 0 <= i < |PumpEventId(e)| ==> PumpEventId(e)[i] in HexDigits
  {
  }

  lemma HexDigitsDistinct(i: nat, j: nat)
    requires i < 16 && j < 16 && HexDigits[i] == HexDigits[j]
    ensures i == j
  {
  }

  lemma HexByteInjective(a: byte, b: byte)
    requires HexByte(a) == HexByte(b)
    ensures a == b
  {
    assert HexByte(a)[0] == HexByte(b)[0] && HexByte(a)[1] == HexByte(b)[1];
    HexDigitsDistinct(a as int / 16, b as int / 16);
    HexDigitsDistinct(a as int % 16, b as int % 16);
  }

  /** Hex encoding is injective: two byte strings have the same hex text iff they are equal. */
  lemma {:induction false} HexInjective(a: seq<byte>, b: seq<byte>)
    ensures Hex(a) == Hex(b) <==> a == b
  {
    if Hex(a) == Hex(b) && a != [] {
      assert |a| == |b|;
      var ha, hb := Hex(a), Hex(b);
      assert ha[..2] == HexByte(a[0]) && hb[..2] == HexByte(b[0]);
      HexByteInjective(a[0], b[0]);
      assert ha[2..] == Hex(a[1..]) && hb[2..] == Hex(b[1..]);
      HexInjective(a[1..], b[1..]);
      assert a == [a[0]] + a[1..] && b == [b[0]] + b[1..];
    }
  }

  /** Two events have the same id iff their id payload bytes are equal. */
  lemma EventIdsEqualIff(e1: HistoryEvent, e2: HistoryEvent)
    ensures PumpEventId(e1) == PumpEventId(e2) <==> IdBytes(e1) == IdBytes(e2)
  {
    HexInjective(IdBytes(e1), IdBytes(e2));
  }
}
