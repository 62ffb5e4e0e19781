/**
 * What `updateState` promises about the telemetry state and its update
 * notifications, proved about the specification function `Decode`.
 */
module MuscleOxygenProperties {

  import opened Wrappers
  import opened MuscleOxygen

  /** A measurement page that is long enough for all of its reads. */
  predicate IsMeasurement(data: seq<Byte>)
  {
    |data| >= 8 && data[0] == MeasurementPage
  }

  /** A page byte the decoder does not know leaves the state alone and emits nothing. */
  lemma UnknownPageIgnored(s: OxygenRecord, data: seq<Byte>)
    requires |data| >= 1
    requires data[0] !in {MeasurementPage, ManufacturerPage, ProductPage, BatteryPage}
    ensures Decode(s, data) == (s, Done(false))
  {
  }

  /**
   * After a measurement page the stored counter is the page's raw 8-bit
   * count, except that a count of 0 never replaces an absent counter.
   */
  lemma CounterKeepsRawByte(s: OxygenRecord, data: seq<Byte>)
    requires IsMeasurement(data)
    ensures Decode(s, data).0.eventCount ==
              if s.eventCount.None? && data[1] == 0 then None else Some(data[1] as int)
  {
  }

  /**
   * A measurement page emits an update exactly when the stored counter is not
   * already the page's count; an absent counter never equals a count.
   */
  lemma EmissionRule(s: OxygenRecord, data: seq<Byte>)
    requires IsMeasurement(data)
    ensures Decode(s, data).1 == Done(s.eventCount != Some(data[1] as int))
  {
  }

  /**
   * The information and battery pages always emit once decoded: pages 0x50
   * and 0x51 read up to +7, page 0x52 up to +10.
   */
  lemma InformationPagesEmit(s: OxygenRecord, data: seq<Byte>)
    requires |data| >= 1 && data[0] in {ManufacturerPage, ProductPage, BatteryPage}
    requires |data| >= (if data[0] == BatteryPage then 11 else 8)
    ensures Decode(s, data).1 == Done(true)
  {
  }

  /**
   * A retransmitted measurement page is not announced twice, unless its count
   * is 0 and no counter has been stored yet.
   */
  lemma RepeatedPageEmitsOnce(s: OxygenRecord, data: seq<Byte>)
    requires IsMeasurement(data)
    requires !(s.eventCount.None? && data[1] == 0)
    ensures Decode(Decode(s, data).0, data).1 == Done(false)
  {
    CounterKeepsRawByte(s, data);
    EmissionRule(Decode(s, data).0, data);
  }

  /** While no counter is stored, pages with count 0 keep emitting and store nothing. */
  lemma ZeroCountKeepsEmitting(s: OxygenRecord, data: seq<Byte>)
    requires IsMeasurement(data) && data[1] == 0 && s.eventCount.None?
    ensures Decode(s, data).0.eventCount == None
    ensures Decode(s, data).1 == Done(true)
  {
  }

  /** Decode payloads in order: the final state and the number of updates emitted. */
  function DecodeRun(s: OxygenRecord, run: seq<seq<Byte>>): (OxygenRecord, nat)
    decreases |run|
  {
    if run == [] then (s, 0)
    else
      var (s1, r) := Decode(s, run[0]);
      var (s2, n) := DecodeRun(s1, run[1..]);
      (s2, n + if r == Done(true) then 1 else 0)
  }

  /** The raw counts of a run of measurement pages. */
  function Counts(run: seq<seq<Byte>>): (cs: seq<nat>)
    requires forall i :: 0 <= i < |run| ==> IsMeasurement(run[i])
    decreases |run|
  {
    if run == [] then [] else assert IsMeasurement(run[0]); [run[0][1] as nat] + Counts(run[1..])
  }

  /** How many counts differ from the count before them, `prev` coming first. */
  function Changes(prev: nat, cs: seq<nat>): nat
    decreases |cs|
  {
    if cs == [] then 0 else (if cs[0] != prev then 1 else 0) + Changes(cs[0], cs[1..])
  }

  /**
   * Deduplication: once a counter is stored, a run of measurement pages emits
   * exactly one update per change of the event count, and the stored counter
   * ends as the last raw count.
   */
  lemma {:induction false} EmissionsFollowCounterChanges(s: OxygenRecord, run: seq<seq<Byte>>)
    requires s.eventCount.Some?
    requires forall i :: 0 <= i < |run| ==> IsMeasurement(run[i])
    ensures DecodeRun(s, run).1 == Changes(s.eventCount.value, Counts(run))
    ensures run != [] ==> DecodeRun(s, run).0.eventCount == Some(run[|run| - 1][1] as int)
    ensures run == [] ==> DecodeRun(s, run).0 == s
    decreases |run|
  {
    if run != [] {
      var s1 := Decode(s, run[0]).0;
      CounterKeepsRawByte(s, run[0]);
      EmissionRule(s, run[0]);
      assert s1.eventCount == Some(run[0][1] as int);
      EmissionsFollowCounterChanges(s1, run[1..]);
      if |run| > 1 {
        assert run[1..][|run[1..]| - 1] == run[|run| - 1];
      }
    }
  }

  /**
   * The stored counter is the raw byte: a counter that wraps from 255 to 0
   * goes back to 0 and the rollover-adjusted value is not kept.
   */
  lemma CounterWrapsRaw(s: OxygenRecord, data: seq<Byte>)
    requires IsMeasurement(data) && data[1] == 0 && s.eventCount == Some(255)
    ensures Decode(s, data).0.eventCount == Some(0)
    ensures Decode(s, data).1 == Done(true)
  {
  }

  /** The sentinel codes of the 12-bit total and the numeric case. */
  lemma TotalReadingExamples(s: OxygenRecord, data: seq<Byte>)
    requires IsMeasurement(data)
    ensures data[4] == 0xfe && data[5] % 16 == 0xf ==>
              Decode(s, data).0.totalHemoglobinConcentration == Some(AmbientLightTooHigh)
    ensures data[4] == 0xff && data[5] % 16 == 0xf ==>
              Decode(s, data).0.totalHemoglobinConcentration == Some(Reading.Invalid)
    ensures data[4] == 0xf4 && data[5] % 16 == 1 ==>
              Decode(s, data).0.totalHemoglobinConcentration == Some(Value(500))
  {
  }

  /** Capability bits 1..3 choose the measurement interval; codes outside 1..4 remove it. */
  lemma MeasurementIntervalFromCapabilities(s: OxygenRecord, data: seq<Byte>)
    requires IsMeasurement(data)
    ensures (data[3] / 2) % 8 == 3 ==> Decode(s, data).0.measurementInterval == Some(1.0)
    ensures (data[3] / 2) % 8 == 0 ==> Decode(s, data).0.measurementInterval == None
    ensures Decode(s, data).0.utcTimeRequired == Some(data[2] % 2 == 1)
    ensures Decode(s, data).0.supportAntFs == Some(data[3] % 2 == 1)
  {
  }

  /** Page 0x50 sets the hardware revision, manufacturer and model, and nothing else. */
  lemma ManufacturerPageFields(s: OxygenRecord, data: seq<Byte>)
    requires |data| >= 8 && data[0] == ManufacturerPage
    ensures Decode(s, data) ==
      (s.(hwVersion := Some(data[3] as int),
          manId := Some((data[4] as int) + 256 * (data[5] as int)),
          modelNum := Some((data[6] as int) + 256 * (data[7] as int))),
       Done(true))
  {
  }

  /** A page 0x50 frame that ends before the manufacturer id keeps the hardware revision. */
  lemma ManufacturerPageCutShort(s: OxygenRecord, data: seq<Byte>)
    requires 4 <= |data| < 6 && data[0] == ManufacturerPage
    ensures Decode(s, data) == (s.(hwVersion := Some(data[3] as int)), OutOfRange)
  {
  }

  /**
   * Page 0x51: the serial is read as a signed word, so the all-ones check
   * never fires and the serial number is always set; all-ones reads as -1.
   */
  lemma SerialAlwaysAssigned(s: OxygenRecord, data: seq<Byte>)
    requires |data| >= 8 && data[0] == ProductPage
    ensures Decode(s, data).0.serialNumber == Some(I32LE(data, 4))
    ensures data[4] == data[5] == data[6] == data[7] == 0xff ==> Decode(s, data).0.serialNumber == Some(-1)
    ensures Decode(s, data).0.swVersion == Some(SwVersion(data[3], data[2]))
  {
  }

  /**
   * Page 0x52: the status bit field is always stored; status 1..5 are named
   * and keep a voltage, any other status is "Invalid" and clears it.
   */
  lemma BatteryPageFields(s: OxygenRecord, data: seq<Byte>)
    requires |data| >= 11 && data[0] == BatteryPage
    ensures Decode(s, data).0.batteryStatusBit == Some((data[7] / 16) % 8)
    ensures (data[7] / 16) % 8 == 5 ==>
              Decode(s, data).0.batteryStatus == Some(Critical) && Decode(s, data).0.batteryVoltage.Some?
    ensures (data[7] / 16) % 8 in {0, 6, 7} ==>
              Decode(s, data).0.batteryStatus == Some(BatteryStatus.Invalid) && Decode(s, data).0.batteryVoltage == None
    ensures Decode(s, data).0.operatingTime ==
              Some(((data[3] as int) + 256 * (data[4] as int) + 0x1_0000 * (data[5] as int)) * if data[7] >= 128 then 2 else 16)
  {
  }
}
