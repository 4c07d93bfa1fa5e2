/**
 * The device plugin for Cambium PMP wireless radios: it classifies a radio as
 * an access point or a subscriber module, picks the frequency divisor for its
 * model family, and lists the wireless sensors the monitoring platform should
 * poll on it.
 *
 * Everything the plugin reads from its host is a parameter here: the device
 * id and cached hardware description (a `Device`), and the reply to the
 * `boxDeviceType.0` SNMP read (an `Option<string>`, `None` for a failed read).
 */
module Pmp {
  import opened Wrappers
  import opened Substring

  // ---------------------------------------------------------------------
  // Sensor descriptors
  // ---------------------------------------------------------------------

  /** The wireless sensor classes this plugin discovers. */
  datatype SensorClass = Rssi | Snr | Frequency | Utilization | Ssr {
    /** The class name the host platform stores with the sensor. */
    function Name(): string
    {
      match this
      case Rssi => "rssi"
      case Snr => "snr"
      case Frequency => "frequency"
      case Utilization => "utilization"
      case Ssr => "ssr"
    }
  }

  /** What the plugin reads of the device: its id and its hardware description. */
  datatype Device = Device(id: int, hardware: string)

  /**
   * One proposed sensor: its class, owning device, the OID to poll, the
   * subtype that tells sensors of one class apart, the index, the label,
   * the current reading (always null here), and the scale multiplier and
   * divisor applied to the raw value.
   */
  datatype SensorDescriptor = SensorDescriptor(
    sensorClass: SensorClass,
    deviceId: int,
    oid: string,
    subtype: string,
    index: int,
    description: string,
    current: Option<int>,
    multiplier: int,
    divisor: int)

  /** A descriptor built the way the plugin builds one: no current value, default scale 1/1. */
  function Sensor(sensorClass: SensorClass, deviceId: int, oid: string, subtype: string,
                  description: string, multiplier: int := 1, divisor: int := 1): SensorDescriptor
  {
    SensorDescriptor(sensorClass, deviceId, oid, subtype, 0, description, None, multiplier, divisor)
  }

  /**
   * What every discovery result must satisfy: each descriptor belongs to the
   * device, has the requested class, sits at index 0, has a positive divisor,
   * and no two descriptors share a subtype, because (device, class, subtype,
   * index) is how the host recognises a sensor between discovery runs.
   */
  ghost predicate WellFormedRun(device: Device, cls: SensorClass, r: seq<SensorDescriptor>)
  {
    && (forall k :: 0 <= k < |r| ==>
          r[k].deviceId == device.id && r[k].sensorClass == cls
          && r[k].index == 0 && r[k].current == None && r[k].divisor > 0)
    && (forall k, m :: 0 <= k < m < |r| ==> r[k].subtype != r[m].subtype)
  }

  /** The subtypes of a discovery result, in order. */
  function Subtypes(r: seq<SensorDescriptor>): (s: seq<string>)
    ensures |s| == |r|
    ensures forall k :: 0 <= k < |r| ==> s[k] == r[k].subtype
  {
    if r == [] then [] else [r[0].subtype] + Subtypes(r[1..])
  }

  // ---------------------------------------------------------------------
  // OIDs (WHISP MIBs); the APS subtree serves access points, the SMS
  // subtree subscriber modules
  // ---------------------------------------------------------------------

  const RssiOid := ".1.3.6.1.4.1.161.19.3.2.2.2.0"
  const ApSnrHorizontalOid := ".1.3.6.1.4.1.161.19.3.1.4.1.84.2"
  const ApSnrVerticalOid := ".1.3.6.1.4.1.161.19.3.1.4.1.74.2"
  const SmSnrHorizontalOid := ".1.3.6.1.4.1.161.19.3.2.2.106.0"
  const SmSnrVerticalOid := ".1.3.6.1.4.1.161.19.3.2.2.95.0"
  const FrequencyOid := ".1.3.6.1.4.1.161.19.3.1.7.37.0"
  const DownlinkUtilizationOid := ".1.3.6.1.4.1.161.19.3.1.12.1.1.0"
  const UplinkUtilizationOid := ".1.3.6.1.4.1.161.19.3.1.12.1.2.0"
  const ApSsrOid := ".1.3.6.1.4.1.161.19.3.1.4.1.86.2"
  const SmSsrOid := ".1.3.6.1.4.1.161.19.3.2.2.108.0"

  // ---------------------------------------------------------------------
  // Role classification
  // ---------------------------------------------------------------------

  /** The hardware description names the access-point role: it holds "AP" or "Master". */
  ghost predicate MarksAccessPoint(hardware: string)
  {
    OccursIn("AP", hardware) || OccursIn("Master", hardware)
  }

  /**
   * The radio is an access point exactly when its hardware description
   * contains "AP" or "Master", compared case-sensitively; otherwise it is a
   * subscriber module.
   */
  function IsAp(device: Device): (r: bool)
    ensures r <==> MarksAccessPoint(device.hardware)
  {
    ContainsCorrect(device.hardware, "AP");
    ContainsCorrect(device.hardware, "Master");
    Contains(device.hardware, "AP") || Contains(device.hardware, "Master")
  }

  // ---------------------------------------------------------------------
  // Frequency divisor
  // ---------------------------------------------------------------------

  /**
   * Box-type keys and the divisor applied to the raw carrier reading, in
   * the order they are tried: 1000 for OFDM radios, 1 for FSK 5.x GHz
   * radios, 10 for FSK 2.4 GHz and 900 MHz radios. The keys are spelled as
   * the plugin spells them.
   */
  const FreqDivisorTypes: seq<(string, int)> := [
    ("OFDM", 1000),
    ("5.4GHz", 1),
    ("5.2Ghz", 1),
    ("5.7Ghz", 1),
    ("2.4Ghz", 10),
    ("900Mhz", 10)
  ]

  /**
   * The value of the first entry of `table`, in order, whose key is
   * contained in `boxType`, or `None` when no key is.
   */
  function FirstMatch(table: seq<(string, int)>, boxType: string): (r: Option<int>)
    ensures r.Some? ==> exists e :: e in table && e.1 == r.value
  {
    if table == [] then None
    else if Contains(boxType, table[0].0) then Some(table[0].1)
    else FirstMatch(table[1..], boxType)
  }

  /** Entry `i` is the earliest entry of `table` whose key occurs in `boxType`. */
  ghost predicate IsFirstMatch(table: seq<(string, int)>, boxType: string, i: int)
  {
    && 0 <= i < |table|
    && OccursIn(table[i].0, boxType)
    && forall j :: 0 <= j < i ==> !OccursIn(table[j].0, boxType)
  }

  /** The lookup finds nothing exactly when no key of the table occurs in the box type. */
  lemma {:induction false} FirstMatchNone(table: seq<(string, int)>, boxType: string)
    ensures FirstMatch(table, boxType) == None
            <==> forall i :: 0 <= i < |table| ==> !OccursIn(table[i].0, boxType)
    decreases |table|
  {
    if table != [] {
      ContainsCorrect(boxType, table[0].0);
      FirstMatchNone(table[1..], boxType);
      assert forall i :: 1 <= i < |table| ==> table[i] == table[1..][i - 1];
    }
  }

  /** The lookup returns the value of the earliest matching entry: first match wins. */
  lemma {:induction false} FirstMatchFirst(table: seq<(string, int)>, boxType: string, i: int)
    requires IsFirstMatch(table, boxType, i)
    ensures FirstMatch(table, boxType) == Some(table[i].1)
    decreases |table|
  {
    ContainsCorrect(boxType, table[0].0);
    if i > 0 {
      assert !OccursIn(table[0].0, boxType);
      assert forall j :: 0 <= j < i - 1 ==> table[1..][j] == table[j + 1];
      FirstMatchFirst(table[1..], boxType, i - 1);
    }
  }

  /** The box type the divisor lookup inspects: a failed read is treated as an empty reply. */
  function BoxType(reply: Option<string>): string
  {
    reply.GetOr("")
  }

  /**
   * The frequency divisor for the radio whose `boxDeviceType.0` read
   * returned `reply`: the divisor of the first key in `FreqDivisorTypes`
   * contained in the box type, or 1 when none is (a failed read included).
   */
  function FreqDivisor(reply: Option<string>): (r: int)
    ensures r == 1 || r == 10 || r == 1000
  {
    match FirstMatch(FreqDivisorTypes, BoxType(reply))
    case Some(v) => v
    case None => 1
  }

  /** With no table key in the box type the divisor defaults to 1. */
  lemma FreqDivisorDefault(reply: Option<string>)
    requires forall i :: 0 <= i < |FreqDivisorTypes| ==> !OccursIn(FreqDivisorTypes[i].0, BoxType(reply))
    ensures FreqDivisor(reply) == 1
  {
    FirstMatchNone(FreqDivisorTypes, BoxType(reply));
  }

  /** A failed read and an empty reply both give divisor 1. */
  lemma FreqDivisorNoReply()
    ensures FreqDivisor(None) == 1
    ensures FreqDivisor(Some("")) == 1
  {
    assert forall i :: 0 <= i < |FreqDivisorTypes| ==> !OccursIn(FreqDivisorTypes[i].0, "");
    FreqDivisorDefault(None);
    FreqDivisorDefault(Some(""));
  }

  /** Otherwise the divisor is that of the earliest table key found in the box type. */
  lemma FreqDivisorFirstKey(reply: Option<string>, i: int)
    requires IsFirstMatch(FreqDivisorTypes, BoxType(reply), i)
    ensures FreqDivisor(reply) == FreqDivisorTypes[i].1
  {
    FirstMatchFirst(FreqDivisorTypes, BoxType(reply), i);
  }

  /**
   * "OFDM" is tried first, so any box type that contains it gets divisor
   * 1000, whatever band key it also contains.
   */
  lemma OfdmWins(boxType: string)
    requires OccursIn("OFDM", boxType)
    ensures FreqDivisor(Some(boxType)) == 1000
  {
    FreqDivisorFirstKey(Some(boxType), 0);
  }

  /** A box type that contains both "OFDM" and "5.4GHz" takes the OFDM divisor. */
  lemma OfdmBeforeBand()
    ensures FreqDivisor(Some("OFDM-5.4GHz-Lite")) == 1000
  {
    assert OccursAt("OFDM", "OFDM-5.4GHz-Lite", 0);
    OfdmWins("OFDM-5.4GHz-Lite");
  }

  /**
   * Keys are compared case-sensitively: a box type spelled "2.4GHz" does not
   * match the key "2.4Ghz" and gets the default divisor 1.
   */
  lemma CaseSensitiveKeys(boxType: string)
    requires boxType == "2.4GHz"
    ensures FreqDivisor(Some(boxType)) == 1
  {
    AbsentChar("OFDM", boxType, 'O');
    AbsentChar("5.4GHz", boxType, '5');
    AbsentChar("5.2Ghz", boxType, '5');
    AbsentChar("5.7Ghz", boxType, '5');
    AbsentChar("2.4Ghz", boxType, 'h');
    AbsentChar("900Mhz", boxType, '9');
    FreqDivisorDefault(Some(boxType));
  }

  /** The box type spelled as the key, "2.4Ghz", gets the 2.4 GHz FSK divisor 10. */
  lemma ExactKeyMatches(boxType: string)
    requires boxType == "2.4Ghz"
    ensures FreqDivisor(Some(boxType)) == 10
  {
    AbsentChar("OFDM", boxType, 'O');
    AbsentChar("5.4GHz", boxType, '5');
    AbsentChar("5.2Ghz", boxType, '5');
    AbsentChar("5.7Ghz", boxType, '5');
    assert OccursAt(FreqDivisorTypes[4].0, boxType, 0);
    FreqDivisorFirstKey(Some(boxType), 4);
  }

  // ---------------------------------------------------------------------
  // Discovery
  // ---------------------------------------------------------------------

  /** RSSI: one sensor at a fixed subscriber-side OID, whatever the radio's role. */
  function DiscoverWirelessRssi(device: Device): (r: seq<SensorDescriptor>)
    ensures WellFormedRun(device, Rssi, r)
    ensures forall k :: 0 <= k < |r| ==> r[k].sensorClass.Name() == "rssi"
    ensures Subtypes(r) == ["pmp"]
    ensures r[0].oid == RssiOid && r[0].description == "Cambium RSSI"
    ensures r[0].multiplier == 1 && r[0].divisor == 1
  {
    [Sensor(Rssi, device.id, RssiOid, "pmp", "Cambium RSSI")]
  }

  /**
   * SNR: a horizontal then a vertical sensor, read from the access-point
   * OIDs when the hardware description marks an access point and from the
   * subscriber-module OIDs otherwise.
   */
  function DiscoverWirelessSnr(device: Device): (r: seq<SensorDescriptor>)
    ensures WellFormedRun(device, Snr, r)
    ensures forall k :: 0 <= k < |r| ==> r[k].sensorClass.Name() == "snr"
    ensures Subtypes(r) == ["pmp-h", "pmp-v"]
    ensures r[0].description == "Cambium SNR Horizontal" && r[1].description == "Cambium SNR Vertical"
    ensures MarksAccessPoint(device.hardware) ==>
              r[0].oid == ApSnrHorizontalOid && r[1].oid == ApSnrVerticalOid
    ensures !MarksAccessPoint(device.hardware) ==>
              r[0].oid == SmSnrHorizontalOid && r[1].oid == SmSnrVerticalOid
    ensures forall k :: 0 <= k < |r| ==> r[k].multiplier == 1 && r[k].divisor == 1
  {
    var (horizontal, vertical) :=
      if IsAp(device) then (ApSnrHorizontalOid, ApSnrVerticalOid)
      else (SmSnrHorizontalOid, SmSnrVerticalOid);
    [ Sensor(Snr, device.id, horizontal, "pmp-h", "Cambium SNR Horizontal"),
      Sensor(Snr, device.id, vertical, "pmp-v", "Cambium SNR Vertical") ]
  }

  /**
   * Frequency: one sensor at a fixed OID, multiplier 1, whose divisor is
   * the model family's divisor, so it is always 1, 10 or 1000.
   */
  function DiscoverWirelessFrequency(device: Device, boxTypeReply: Option<string>): (r: seq<SensorDescriptor>)
    ensures WellFormedRun(device, Frequency, r)
    ensures forall k :: 0 <= k < |r| ==> r[k].sensorClass.Name() == "frequency"
    ensures Subtypes(r) == ["pmp"]
    ensures r[0].oid == FrequencyOid && r[0].description == "Frequency"
    ensures r[0].multiplier == 1 && r[0].divisor == FreqDivisor(boxTypeReply)
    ensures r[0].divisor in {1, 10, 1000}
  {
    [Sensor(Frequency, device.id, FrequencyOid, "pmp", "Frequency", 1, FreqDivisor(boxTypeReply))]
  }

  /** Utilization: a downlink then an uplink sensor at fixed OIDs. */
  function DiscoverWirelessUtilization(device: Device): (r: seq<SensorDescriptor>)
    ensures WellFormedRun(device, Utilization, r)
    ensures forall k :: 0 <= k < |r| ==> r[k].sensorClass.Name() == "utilization"
    ensures Subtypes(r) == ["pmp-downlink", "pmp-uplink"]
    ensures r[0].oid == DownlinkUtilizationOid && r[1].oid == UplinkUtilizationOid
    ensures r[0].description == "Downlink Utilization" && r[1].description == "Uplink Utilization"
    ensures forall k :: 0 <= k < |r| ==> r[k].multiplier == 1 && r[k].divisor == 1
  {
    [ Sensor(Utilization, device.id, DownlinkUtilizationOid, "pmp-downlink", "Downlink Utilization"),
      Sensor(Utilization, device.id, UplinkUtilizationOid, "pmp-uplink", "Uplink Utilization") ]
  }

  /**
   * Signal strength ratio: one sensor, at the access-point OID when the
   * hardware description marks an access point, at the subscriber-module
   * OID otherwise.
   */
  function DiscoverWirelessSsr(device: Device): (r: seq<SensorDescriptor>)
    ensures WellFormedRun(device, Ssr, r)
    ensures forall k :: 0 <= k < |r| ==> r[k].sensorClass.Name() == "ssr"
    ensures Subtypes(r) == ["pmp"]
    ensures r[0].oid == (if MarksAccessPoint(device.hardware) then ApSsrOid else SmSsrOid)
    ensures r[0].description == "Cambium Signal Strength Ratio"
    ensures r[0].multiplier == 1 && r[0].divisor == 1
  {
    var ssr := if IsAp(device) then ApSsrOid else SmSsrOid;
    [Sensor(Ssr, device.id, ssr, "pmp", "Cambium Signal Strength Ratio")]
  }

  /**
   * Utilization and RSSI depend on neither role nor model: two devices with
   * the same id get the same sensors whatever their hardware descriptions.
   */
  lemma RoleIndependentSensors(d1: Device, d2: Device)
    requires d1.id == d2.id
    ensures DiscoverWirelessUtilization(d1) == DiscoverWirelessUtilization(d2)
    ensures DiscoverWirelessRssi(d1) == DiscoverWirelessRssi(d2)
  {
  }

  /**
   * The role-dependent OIDs differ between the two roles, so an access
   * point and a subscriber module never propose the same SNR or SSR sensor
   * OIDs.
   */
  lemma RolesUseDistinctOids(ap: Device, sm: Device)
    requires MarksAccessPoint(ap.hardware) && !MarksAccessPoint(sm.hardware)
    ensures forall k, m :: 0 <= k < 2 && 0 <= m < 2 ==>
              DiscoverWirelessSnr(ap)[k].oid != DiscoverWirelessSnr(sm)[m].oid
    ensures DiscoverWirelessSsr(ap)[0].oid != DiscoverWirelessSsr(sm)[0].oid
  {
  }

  /**
   * A subscriber module with hardware "PMP-SM-100" whose box-type read fails
   * uses the subscriber SSR OID and frequency divisor 1.
   */
  lemma SubscriberExample(sm: Device)
    requires sm.hardware == "PMP-SM-100"
    ensures DiscoverWirelessSsr(sm)[0].oid == SmSsrOid
    ensures DiscoverWirelessFrequency(sm, None)[0].divisor == 1
  {
    AbsentChar("AP", sm.hardware, 'A');
    AbsentChar("Master", sm.hardware, 'a');
    FreqDivisorNoReply();
  }

  /**
   * An access point with hardware "PMP-AP-450" reporting box type
   * "OFDM-5.4GHz-Lite" uses the access-point SSR OID and divisor 1000.
   */
  lemma AccessPointExample(ap: Device)
    requires ap.hardware == "PMP-AP-450"
    ensures DiscoverWirelessSsr(ap)[0].oid == ApSsrOid
    ensures DiscoverWirelessFrequency(ap, Some("OFDM-5.4GHz-Lite"))[0].divisor == 1000
  {
    assert OccursAt("AP", ap.hardware, 4);
    OfdmBeforeBand();
  }
}
