/**
 * The muscle-oxygen page decoder (`updateState` in
 * src/sensors/muscleOxygen/muscleOxygenUtils.ts).
 *
 * A payload is the sequence of bytes of an inbound data frame from its page
 * byte on (offset 0 here is `BUFFER_INDEX_MSG_DATA` there). Bit operations on
 * non-negative values are written arithmetically: `x >> k` is `x / 2^k` and
 * `x & (2^k - 1)` is `x % 2^k`; on a signed 32-bit word `x & 0xff` is the
 * Euclidean `x % 256`, the low byte of its two's complement.
 */
module MuscleOxygen {

  import opened Wrappers

  type Byte = b: int | 0 <= b < 256

  /** A saturation or concentration reading, or one of its two sentinel codes. */
  datatype Reading = Value(n: nat) | AmbientLightTooHigh | Invalid

  /** The battery status named by the 3-bit status field of page 0x52. */
  datatype BatteryStatus = New | Good | Ok | Low | Critical | Invalid

  /** The telemetry fields `updateState` writes; `None` is an absent property. */
  datatype OxygenRecord = OxygenRecord(
    eventCount: Option<nat>,
    utcTimeRequired: Option<bool>,
    supportAntFs: Option<bool>,
    measurementInterval: Option<real>,
    totalHemoglobinConcentration: Option<Reading>,
    previousSaturatedHemoglobinPercentage: Option<Reading>,
    currentSaturatedHemoglobinPercentage: Option<Reading>,
    hwVersion: Option<nat>,
    manId: Option<nat>,
    modelNum: Option<nat>,
    swVersion: Option<real>,
    serialNumber: Option<int>,
    operatingTime: Option<nat>,
    batteryVoltage: Option<real>,
    batteryStatus: Option<BatteryStatus>,
    batteryStatusBit: Option<nat>)

  const EmptyRecord := OxygenRecord(None, None, None, None, None, None, None, None,
                                    None, None, None, None, None, None, None, None)

  /** What one call does: it returns, emitting an update or not, or a read runs past the frame. */
  datatype UpdateResult = Done(emitted: bool) | OutOfRange

  const MeasurementPage := 0x01
  const ManufacturerPage := 0x50
  const ProductPage := 0x51
  const BatteryPage := 0x52

  // ---------------------------------------------------------------- byte reads

  /** `readUInt16LE`. */
  function U16LE(data: seq<Byte>, off: nat): (v: nat)
    requires off + 2 <= |data|
    ensures v < 0x1_0000
  {
    (data[off] as int) + 256 * (data[off + 1] as int)
  }

  /** `readUInt32LE`. */
  function U32LE(data: seq<Byte>, off: nat): (v: nat)
    requires off + 4 <= |data|
    ensures v < 0x1_0000_0000
  {
    U16LE(data, off) + 0x1_0000 * U16LE(data, off + 2)
  }

  /** `readInt32LE`: the same four bytes read as a two's-complement word. */
  function I32LE(data: seq<Byte>, off: nat): (v: int)
    requires off + 4 <= |data|
    ensures -0x8000_0000 <= v < 0x8000_0000
    ensures v % 0x1_0000_0000 == U32LE(data, off)
    ensures v % 256 == (data[off] as int)
  {
    var u := U32LE(data, off);
    LowByte(u, data[off], (data[off + 1] as int) + 256 * U16LE(data, off + 2));
    if u < 0x8000_0000 then u else u - 0x1_0000_0000
  }

  /** The low byte of a word, before and after subtracting 2^32. */
  lemma LowByte(u: int, b: int, rest: int)
    requires 0 <= b < 256 && u == b + 256 * rest
    ensures u % 256 == b && (u - 0x1_0000_0000) % 256 == b
  {
    assert u - 0x1_0000_0000 == b + 256 * (rest - 0x100_0000);
  }

  /** The low nibble of a word is the low nibble of its low byte. */
  lemma LowNibble(v: int)
    ensures (v % 256) % 16 == v % 16
  {
    assert v == 256 * (v / 256) + v % 256;
    assert v % 256 == 16 * ((v % 256) / 16) + (v % 256) % 16;
  }

  // ---------------------------------------------------------- page 0x01 fields

  /** `readUInt16LE(+4) & 0xfff`: the low 12 bits of bytes +4..+5. */
  function TotalField(data: seq<Byte>): (r: nat)
    requires |data| >= 6
    ensures r < 0x1000
    ensures r == (data[4] as int) + 256 * ((data[5] as int) % 16)
  {
    U16LE(data, 4) % 0x1000
  }

  /** Bits 4..13 of the little-endian word `lo, hi`. */
  lemma PreviousBits(lo: int, hi: int)
    requires 0 <= lo < 256 && 0 <= hi < 256
    ensures ((lo + 256 * hi) / 16) % 0x400 == lo / 16 + 16 * (hi % 64)
  {
    assert (lo + 256 * hi) / 16 == lo / 16 + 16 * hi;
    assert 16 * hi == 16 * (hi % 64) + 0x400 * (hi / 64);
  }

  /** Bits 6..15 of the little-endian word `lo, hi`. */
  lemma CurrentBits(lo: int, hi: int)
    requires 0 <= lo < 256 && 0 <= hi < 256
    ensures ((lo + 256 * hi) / 64) % 0x400 == lo / 64 + 4 * hi
  {
    assert (lo + 256 * hi) / 64 == lo / 64 + 4 * hi;
  }

  /** `(readUInt16LE(+5) >> 4) & 0x3ff`: bits 4..13 of bytes +5..+6. */
  function PreviousField(data: seq<Byte>): (r: nat)
    requires |data| >= 7
    ensures r < 0x400
    ensures r == (data[5] as int) / 16 + 16 * ((data[6] as int) % 64)
  {
    PreviousBits(data[5], data[6]);
    (U16LE(data, 5) / 16) % 0x400
  }

  /** `(readUInt16LE(+6) >> 6) & 0x3ff`: bits 6..15 of bytes +6..+7. */
  function CurrentField(data: seq<Byte>): (r: nat)
    requires |data| >= 8
    ensures r < 0x400
    ensures r == (data[6] as int) / 64 + 4 * (data[7] as int)
  {
    CurrentBits(data[6], data[7]);
    (U16LE(data, 6) / 64) % 0x400
  }

  /** `(capabilities >> 1) & 0x7`: bits 1..3 of byte +3. */
  function IntervalCode(data: seq<Byte>): (r: nat)
    requires |data| >= 5
    ensures r < 8
    ensures r == ((data[3] as int) / 2) % 8
  {
    (U16LE(data, 3) / 2) % 8
  }

  function Pow2(k: nat): nat
  {
    if k == 0 then 1 else 2 * Pow2(k - 1)
  }

  /**
   * The measurement interval in seconds selected by a 3-bit code: a quarter
   * second doubled for each code after the first; codes 0, 5, 6, 7 remove it.
   */
  function Interval(code: nat): (r: Option<real>)
    ensures r.Some? <==> 1 <= code <= 4
    ensures r.Some? ==> r.value * 8.0 == Pow2(code) as real
  {
    match code
    case 1 => Some(0.25)
    case 2 => Some(0.5)
    case 3 => Some(1.0)
    case 4 => Some(2.0)
    case _ => None
  }

  /** The raw field a reading came from, for a field whose all-ones value is `allOnes`. */
  function RawOf(r: Reading, allOnes: nat): nat
    requires 1 <= allOnes
  {
    match r
    case Value(n) => n
    case AmbientLightTooHigh => allOnes - 1
    case Invalid => allOnes
  }

  /**
   * The sentinel switch of a field whose all-ones value is `allOnes`: all
   * ones minus one is "AmbientLightTooHigh", all ones is "Invalid", anything
   * else is the number itself. No information is lost.
   */
  function ToReading(raw: nat, allOnes: nat): (r: Reading)
    requires 1 <= allOnes && raw <= allOnes
    ensures RawOf(r, allOnes) == raw
    ensures r.Value? ==> r.n < allOnes - 1
  {
    if raw == allOnes - 1 then AmbientLightTooHigh
    else if raw == allOnes then Reading.Invalid
    else Value(raw)
  }

  /** Every reading below the sentinels is reached from exactly its raw field. */
  lemma ReadingRoundTrip(r: Reading, allOnes: nat)
    requires 1 <= allOnes
    requires r.Value? ==> r.n < allOnes - 1
    ensures RawOf(r, allOnes) <= allOnes
    ensures ToReading(RawOf(r, allOnes), allOnes) == r
  {
  }

  // ---------------------------------------------------------- page 0x52 fields

  /** The status number a named battery status stands for. */
  function StatusNumber(b: BatteryStatus): nat
  {
    match b
    case New => 1
    case Good => 2
    case Ok => 3
    case Low => 4
    case Critical => 5
    case Invalid => 0
  }

  /** The switch on the battery status flags: 1..5 are named, anything else is "Invalid". */
  function BatteryStatusOf(flags: nat): (r: BatteryStatus)
    ensures r != BatteryStatus.Invalid <==> 1 <= flags <= 5
    ensures r != BatteryStatus.Invalid ==> StatusNumber(r) == flags
  {
    match flags
    case 1 => New
    case 2 => Good
    case 3 => Ok
    case 4 => Low
    case 5 => Critical
    case _ => BatteryStatus.Invalid
  }

  /** `(batteryStatus & 0x70) >>> 4` of the word read at +7: bits 4..6 of byte +7. */
  function BatteryFlags(data: seq<Byte>): (r: nat)
    requires |data| >= 11
    ensures r < 8
    ensures r == ((data[7] as int) / 16) % 8
  {
    ((I32LE(data, 7) % 256) / 16) % 8
  }

  /**
   * The 24-bit operating time at +3, in units of 2 s when bit 7 of byte +7
   * is set and of 16 s otherwise.
   */
  function OperatingTime(data: seq<Byte>): (r: nat)
    requires |data| >= 11
    ensures r == ((data[3] as int) + 256 * (data[4] as int) + 0x1_0000 * (data[5] as int)) * (if (data[7] as int) >= 128 then 2 else 16)
  {
    var status := I32LE(data, 7);
    (U32LE(data, 3) % 0x100_0000) * (if (status % 256) / 128 == 1 then 2 else 16)
  }

  /**
   * `(batteryStatus & 0x0f) + batteryFrac / 256`: the coarse voltage in the
   * low nibble of byte +7 plus the word read at +6 in 1/256 V.
   */
  function BatteryVoltage(data: seq<Byte>): (v: real)
    requires |data| >= 11
    ensures v == ((data[7] as int) % 16) as real + I32LE(data, 6) as real / 256.0
  {
    LowNibble(I32LE(data, 7));
    (I32LE(data, 7) % 16) as real + I32LE(data, 6) as real / 256.0
  }

  // ---------------------------------------------------------- page 0x51 fields

  /** Main revision plus supplemental revision in thousandths; 0xff means no supplemental revision. */
  function SwVersion(main: Byte, sup: Byte): (v: real)
    ensures main as real <= v < main as real + 1.0
    ensures sup == 0xff ==> v == main as real
    ensures sup != 0xff ==> (v - main as real) * 1000.0 == sup as real
  {
    main as real + if sup != 0xff then sup as real / 1000.0 else 0.0
  }

  // ------------------------------------------------------------- the decoder

  /** `state._EventCount || 0`: the stored counter, with an absent one read as 0. */
  function PriorCount(s: OxygenRecord): nat
  {
    if s.eventCount.Some? then s.eventCount.value else 0
  }

  /** Page 0x01: counter, capabilities and the three hemoglobin readings. */
  function DecodeMeasurement(s: OxygenRecord, data: seq<Byte>): OxygenRecord
    requires |data| >= 8
  {
    var count := data[1] as int;
    s.(eventCount := if count != PriorCount(s) then Some(count) else s.eventCount,
       utcTimeRequired := Some((data[2] as int) % 2 == 1),
       supportAntFs := Some(U16LE(data, 3) % 2 == 1),
       measurementInterval := Interval(IntervalCode(data)),
       totalHemoglobinConcentration := Some(ToReading(TotalField(data), 0xfff)),
       previousSaturatedHemoglobinPercentage := Some(ToReading(PreviousField(data), 0x3ff)),
       currentSaturatedHemoglobinPercentage := Some(ToReading(CurrentField(data), 0x3ff)))
  }

  /**
   * Page 0x50: hardware revision, manufacturer and model. Each field is
   * stored as soon as it is read, so a frame that ends early keeps the fields
   * read before the failing read.
   */
  function DecodeManufacturer(s: OxygenRecord, data: seq<Byte>): (OxygenRecord, UpdateResult)
  {
    if |data| < 4 then (s, OutOfRange)
    else
      var s1 := s.(hwVersion := Some(data[3] as int));
      if |data| < 6 then (s1, OutOfRange)
      else
        var s2 := s1.(manId := Some(U16LE(data, 4)));
        if |data| < 8 then (s2, OutOfRange)
        else (s2.(modelNum := Some(U16LE(data, 6))), Done(true))
  }

  /** Page 0x51: software version and serial number. */
  function DecodeProduct(s: OxygenRecord, data: seq<Byte>): OxygenRecord
    requires |data| >= 8
  {
    var serial := I32LE(data, 4);
    var s1 := s.(swVersion := Some(SwVersion(data[3], data[2])));
    // the serial is signed, so it is never the unsigned all-ones sentinel
    if serial != 0xffff_ffff then s1.(serialNumber := Some(serial)) else s1
  }

  /** Page 0x52: operating time and battery state. */
  function DecodeBattery(s: OxygenRecord, data: seq<Byte>): OxygenRecord
    requires |data| >= 11
  {
    var flags := BatteryFlags(data);
    var status := BatteryStatusOf(flags);
    s.(operatingTime := Some(OperatingTime(data)),
       batteryVoltage := if status == BatteryStatus.Invalid then None else Some(BatteryVoltage(data)),
       batteryStatusBit := Some(flags),
       batteryStatus := Some(status))
  }

  /**
   * One call of `updateState`: the new telemetry state and whether an
   * update is emitted. Each page's reads need the frame to reach the last
   * byte they touch; page 0x52 reads three bytes past the 8-byte page.
   */
  function Decode(s: OxygenRecord, data: seq<Byte>): (OxygenRecord, UpdateResult)
  {
    if |data| < 1 then (s, OutOfRange)
    else if data[0] == MeasurementPage then
      if |data| < 8 then (s, OutOfRange)
      else
        var s1 := DecodeMeasurement(s, data);
        (s1, Done(s1.eventCount != Some(PriorCount(s))))
    else if data[0] == ManufacturerPage then DecodeManufacturer(s, data)
    else if data[0] == ProductPage then
      if |data| < 8 then (s, OutOfRange) else (DecodeProduct(s, data), Done(true))
    else if data[0] == BatteryPage then
      if |data| < 11 then (s, OutOfRange) else (DecodeBattery(s, data), Done(true))
    else (s, Done(false))
  }

  /** The telemetry state object that `updateState` changes in place. */
  class MuscleOxygenState {
    var eventCount: Option<nat>
    var utcTimeRequired: Option<bool>
    var supportAntFs: Option<bool>
    var measurementInterval: Option<real>
    var totalHemoglobinConcentration: Option<Reading>
    var previousSaturatedHemoglobinPercentage: Option<Reading>
    var currentSaturatedHemoglobinPercentage: Option<Reading>
    var hwVersion: Option<nat>
    var manId: Option<nat>
    var modelNum: Option<nat>
    var swVersion: Option<real>
    var serialNumber: Option<int>
    var operatingTime: Option<nat>
    var batteryVoltage: Option<real>
    var batteryStatus: Option<BatteryStatus>
    var batteryStatusBit: Option<nat>

    /** The state's fields as a value. */
    function Record(): OxygenRecord
      reads this
    {
      OxygenRecord(eventCount, utcTimeRequired, supportAntFs, measurementInterval,
                   totalHemoglobinConcentration, previousSaturatedHemoglobinPercentage,
                   currentSaturatedHemoglobinPercentage, hwVersion, manId, modelNum,
                   swVersion, serialNumber, operatingTime, batteryVoltage, batteryStatus,
                   batteryStatusBit)
    }

    constructor ()
      ensures Record() == EmptyRecord
    {
      eventCount, utcTimeRequired, supportAntFs, measurementInterval := None, None, None, None;
      totalHemoglobinConcentration := None;
      previousSaturatedHemoglobinPercentage := None;
      currentSaturatedHemoglobinPercentage := None;
      hwVersion, manId, modelNum, swVersion, serialNumber := None, None, None, None, None;
      operatingTime, batteryVoltage, batteryStatus, batteryStatusBit := None, None, None, None;
    }
  }

  /**
   * `updateState`: decode one payload into `state` in place and report
   * whether the sensor emits an update.
   */
  method UpdateState(state: MuscleOxygenState, data: seq<Byte>) returns (r: UpdateResult)
    modifies state
    ensures (state.Record(), r) == Decode(old(state.Record()), data)
  {
    var oldEventCount := if state.eventCount.Some? then state.eventCount.value else 0;
    if |data| < 1 {
      return OutOfRange;
    }
    var page := data[0];
    if page == MeasurementPage {
      if |data| < 8 {
        return OutOfRange;
      }
      UpdateMeasurement(state, data);
    } else if page == ManufacturerPage {
      var ok := UpdateManufacturer(state, data);
      if !ok {
        return OutOfRange;
      }
    } else if page == ProductPage {
      if |data| < 8 {
        return OutOfRange;
      }
      UpdateProduct(state, data);
    } else if page == BatteryPage {
      if |data| < 11 {
        return OutOfRange;
      }
      UpdateBattery(state, data);
    } else {
      return Done(false);
    }
    r := Done(page != MeasurementPage || state.eventCount != Some(oldEventCount));
  }

  /** The page 0x01 case of `updateState`. */
  method UpdateMeasurement(state: MuscleOxygenState, data: seq<Byte>)
    requires |data| >= 8
    modifies state
    ensures state.Record() == DecodeMeasurement(old(state.Record()), data)
  {
    var oldEventCount := if state.eventCount.Some? then state.eventCount.value else 0;
    var eventCount: int := data[1];
    var notifications := data[2];
    var capabilities := U16LE(data, 3);
    var total := TotalField(data);
    var previous := PreviousField(data);
    var current := CurrentField(data);
    if eventCount != oldEventCount {
      state.eventCount := Some(eventCount);
      if oldEventCount > eventCount {
        // rollover: only this local is adjusted, and it is not read again
        eventCount := eventCount + 255;
      }
    }
    state.utcTimeRequired := Some(notifications % 2 == 1);
    state.supportAntFs := Some(capabilities % 2 == 1);
    state.measurementInterval := Interval((capabilities / 2) % 8);
    state.totalHemoglobinConcentration := Some(ToReading(total, 0xfff));
    state.previousSaturatedHemoglobinPercentage := Some(ToReading(previous, 0x3ff));
    state.currentSaturatedHemoglobinPercentage := Some(ToReading(current, 0x3ff));
  }

  /** The page 0x50 case of `updateState`; false when a read runs past the frame. */
  method UpdateManufacturer(state: MuscleOxygenState, data: seq<Byte>) returns (ok: bool)
    modifies state
    ensures (state.Record(), if ok then Done(true) else OutOfRange) == DecodeManufacturer(old(state.Record()), data)
  {
    if |data| < 4 {
      return false;
    }
    state.hwVersion := Some(data[3]);
    if |data| < 6 {
      return false;
    }
    state.manId := Some(U16LE(data, 4));
    if |data| < 8 {
      return false;
    }
    state.modelNum := Some(U16LE(data, 6));
    ok := true;
  }

  /** The page 0x51 case of `updateState`. */
  method UpdateProduct(state: MuscleOxygenState, data: seq<Byte>)
    requires |data| >= 8
    modifies state
    ensures state.Record() == DecodeProduct(old(state.Record()), data)
  {
    var swRevSup := data[2];
    var swRevMain := data[3];
    var serial := I32LE(data, 4);
    state.swVersion := Some(SwVersion(swRevMain, swRevSup));
    if serial != 0xffff_ffff {
      state.serialNumber := Some(serial);
    }
  }

  /** The page 0x52 case of `updateState`. */
  method UpdateBattery(state: MuscleOxygenState, data: seq<Byte>)
    requires |data| >= 11
    modifies state
    ensures state.Record() == DecodeBattery(old(state.Record()), data)
  {
    var operatingTime := U32LE(data, 3) % 0x100_0000;
    var batteryFrac := I32LE(data, 6);
    var batteryStatus := I32LE(data, 7);
    state.operatingTime := Some(operatingTime * if (batteryStatus % 256) / 128 == 1 then 2 else 16);
    state.batteryVoltage := Some((batteryStatus % 16) as real + batteryFrac as real / 256.0);
    var batteryFlags := ((batteryStatus % 256) / 16) % 8;
    state.batteryStatusBit := Some(batteryFlags);
    var named := BatteryStatusOf(batteryFlags);
    if named == BatteryStatus.Invalid {
      state.batteryVoltage := None;
    }
    state.batteryStatus := Some(named);
  }
}
