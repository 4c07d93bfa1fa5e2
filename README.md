# Cambium PMP wireless-sensor discovery, modelled in Dafny

This project models the LibreNMS device plugin for Cambium PMP radios
(`LibreNMS/OS/Pmp.php`). The plugin does three things:

- It classifies a radio as an access point (AP) or a subscriber module (SM) from its cached hardware
  description. The test is a case-sensitive substring check for `"AP"` or `"Master"`.
- It picks the divisor that converts the raw carrier-frequency reading to MHz. It walks an ordered
  table of box-type keys and takes the divisor of the first key found in the `boxDeviceType.0` reply.
  When no key is found it uses 1.
- It lists the wireless sensors (RSSI, SNR, frequency, utilization, signal strength ratio) the platform
  should poll. Each sensor has a class, a device id, an OID, a subtype, an index, a label, a current value,
  a multiplier and a divisor. For SNR and SSR the OIDs depend on the role.

The plugin has no state, so the model is made of functions and lemmas:

- `wrappers.dfy` (module `Wrappers`) defines `Option`.
- `substring.dfy` (module `Substring`) defines `Contains`, an executable left-to-right scan that stands
  for `str_contains`. It is proved equivalent to `OccursIn`, a reference definition ("some position
  starts a copy of the needle").
- `pmp.dfy` (module `Pmp`) models the plugin. It defines `IsAp`, the divisor table `FreqDivisorTypes`,
  the first-match search `FirstMatch`, `FreqDivisor` and the five `DiscoverWireless*` functions. It also
  holds the lemmas about them.

Each discovery result satisfies `WellFormedRun`. Every descriptor belongs to the device, has the requested
class, sits at index 0, has no current value and has a positive divisor. No two descriptors in one result
share a subtype, because the platform uses (device, class, subtype, index) to recognise a sensor from one
discovery run to the next.

Host inputs are parameters:

- The device id and hardware description are a `Device` value.
- The reply to the `boxDeviceType.0` read is an `Option<string>`. `None` is a failed read. The host's
  `snmp_get` returns `false` then, and `str_contains` treats that as an empty string, so `None` and
  `Some("")` behave the same.

The SNR subtypes are `pmp-h` and `pmp-v`. The SSR sensor's OID depends only on the hardware attribute
(LibreNMS/OS/Pmp.php:170-174); no extra SNMP read is involved.

The comment above the divisor table (LibreNMS/OS/Pmp.php:200-204) says OFDM radios report tens of kHz,
which would call for divisor 100 to reach MHz, while the table gives OFDM 1000. The model keeps the
table's value, 1000; which of the two is right cannot be decided from the code.

## Model

| member | source | states |
|---|---|---|
| `Substring.ContainsCorrect` | LibreNMS/OS/Pmp.php:196 | The containment scan used for `str_contains` is true exactly when some position of the haystack starts an exact, case-sensitive copy of the needle (both directions). |
| `Substring.AbsentChar` | LibreNMS/OS/Pmp.php:222 | A key holding a character the string lacks is neither contained in the string nor found by the scan. |
| `Pmp.IsAp` | LibreNMS/OS/Pmp.php:193-197 | A radio is classed as an access point if and only if its hardware description contains "AP" or "Master" case-sensitively; otherwise it is a subscriber module. |
| `Pmp.FirstMatch` | LibreNMS/OS/Pmp.php:221-225 | Any value the search returns is the divisor of some entry of the table. |
| `Pmp.FirstMatchNone` | LibreNMS/OS/Pmp.php:221-227 | The search finds nothing if and only if no key of the table occurs in the box type. |
| `Pmp.FirstMatchFirst` | LibreNMS/OS/Pmp.php:221-225 | When entry i is the earliest entry whose key occurs in the box type, the search returns entry i's divisor (first match wins, in table order). |
| `Pmp.FreqDivisor` | LibreNMS/OS/Pmp.php:206-228 | The frequency divisor is always 1, 10 or 1000, so it is always positive. |
| `Pmp.FreqDivisorDefault` | LibreNMS/OS/Pmp.php:221-227 | When no table key occurs in the box type, the divisor is 1. |
| `Pmp.FreqDivisorNoReply` | LibreNMS/OS/Pmp.php:219-227 | A failed box-type read and an empty reply both give divisor 1. |
| `Pmp.FreqDivisorFirstKey` | LibreNMS/OS/Pmp.php:210-225 | The divisor is that of the earliest key, in the order OFDM, 5.4GHz, 5.2Ghz, 5.7Ghz, 2.4Ghz, 900Mhz, that occurs in the box type. |
| `Pmp.OfdmWins` | LibreNMS/OS/Pmp.php:210-223 | Any box type containing "OFDM" gets divisor 1000, whatever band key it also contains. |
| `Pmp.OfdmBeforeBand` | LibreNMS/OS/Pmp.php:210-224 | The box type "OFDM-5.4GHz-Lite", which holds both the OFDM and the 5.4GHz key, gets 1000 and not 1. |
| `Pmp.CaseSensitiveKeys` | LibreNMS/OS/Pmp.php:210-227 | The box type "2.4GHz" (capital H) does not match the key "2.4Ghz" and gets the default divisor 1. |
| `Pmp.ExactKeyMatches` | LibreNMS/OS/Pmp.php:215-223 | The box type "2.4Ghz" matches the fifth key and gets divisor 10. |
| `Pmp.DiscoverWirelessRssi` | LibreNMS/OS/Pmp.php:50-64 | Returns exactly one well-formed sensor of class "rssi": subtype "pmp", the fixed RSSI OID, label "Cambium RSSI", scale 1/1. |
| `Pmp.DiscoverWirelessSnr` | LibreNMS/OS/Pmp.php:73-102 | Returns exactly two well-formed sensors of class "snr", "pmp-h" then "pmp-v". They use the AP OIDs (…4.1.84.2, …4.1.74.2) exactly when the hardware marks an access point, else the SM OIDs (…2.2.106.0, …2.2.95.0). |
| `Pmp.DiscoverWirelessFrequency` | LibreNMS/OS/Pmp.php:111-127 | Returns exactly one well-formed sensor of class "frequency" at the fixed carrier OID. Its multiplier is 1 and its divisor is the model family's divisor, one of 1, 10 or 1000. |
| `Pmp.DiscoverWirelessUtilization` | LibreNMS/OS/Pmp.php:136-160 | Returns exactly two well-formed sensors of class "utilization", "pmp-downlink" then "pmp-uplink", at the fixed downlink and uplink OIDs. |
| `Pmp.DiscoverWirelessSsr` | LibreNMS/OS/Pmp.php:168-186 | Returns exactly one well-formed sensor of class "ssr", subtype "pmp". Its OID is …4.1.86.2 when the hardware marks an access point and …2.2.108.0 otherwise. |
| `Pmp.RoleIndependentSensors` | LibreNMS/OS/Pmp.php:50-160 | Utilization and RSSI sensors depend only on the device id, not on the hardware description (role). |
| `Pmp.RolesUseDistinctOids` | LibreNMS/OS/Pmp.php:75-174 | An access point and a subscriber module never share an SNR OID or the SSR OID. |
| `Pmp.SubscriberExample` | LibreNMS/OS/Pmp.php:168-186 | Hardware "PMP-SM-100" with a failed box-type read gives the subscriber SSR OID and frequency divisor 1. |
| `Pmp.AccessPointExample` | LibreNMS/OS/Pmp.php:168-186 | Hardware "PMP-AP-450" with box type "OFDM-5.4GHz-Lite" gives the access-point SSR OID and frequency divisor 1000. |

## Left out

- The `snmp_get` call (LibreNMS/OS/Pmp.php:219) is network I/O in the host's SNMP layer. Its reply is a parameter; timeouts and retries belong to the host.
- `getDevice`, `getDeviceId` and the `OS` base class are host accessors. The device id and hardware string are fields of `Device`. A missing (null) hardware attribute behaves in PHP like the empty string, which the model covers.
- The `WirelessSensor` class and how the host persists and reconciles sensors are not part of this model. A sensor is the plain datatype `SensorDescriptor`, and its fields follow the constructor arguments the plugin passes.
- Labels are compared only as literal strings. The MIB names in the source's comments are not modelled.
- Idempotence of discovery is not stated as a lemma. Every member is a Dafny function, so equal inputs give equal results by construction.
