/**
 * Values exchanged by the NITZ state machine, its time service helper and the
 * downstream detection services. All of them are immutable values; the
 * debug-info lists that the Java objects carry are left out, so datatype
 * equality is the "meaningful fields only" equality the helper relies on.
 */
module NitzTypes {
  import opened Wrappers

  /**
   * The country used for time zone detection: NoCountry is Java's null,
   * Code("") is a test network, any other Code is an ISO 3166 alpha-2 code.
   */
  datatype Country = NoCountry | Code(iso: string)

  /** The decoded payload of a NITZ message (NitzData). */
  datatype NitzData = NitzData(
    currentTimeMillis: int,            // UTC instant, milliseconds since the epoch
    localOffsetMillis: int,            // total offset from UTC
    dstAdjustmentMillis: Option<int>,  // None when the network says nothing about DST
    emulatorHostTimeZone: Option<string>)

  /**
   * A NITZ signal: the payload stamped with the elapsed-realtime clock at
   * receipt (TimestampedValue<NitzData>). The payload may be null in Java.
   */
  datatype Signal = Signal(referenceTimeMillis: int, value: Option<NitzData>)

  /** A UTC time stamped with the elapsed-realtime clock (TimestampedValue<Long>). */
  datatype TimedMillis = TimedMillis(referenceTimeMillis: int, utcMillis: int)

  datatype MatchType =
    | MatchNotApplicable
    | NetworkCountryAndOffset
    | NetworkCountryOnly
    | TestNetworkOffsetOnly
    | EmulatorNetworkOffsetOnly

  datatype Quality =
    | QualityNotApplicable
    | SingleZone
    | MultipleZonesWithSameOffset
    | MultipleZonesWithDifferentOffsets

  /** PhoneTimeZoneSuggestion without its debug info. */
  datatype ZoneSuggestion = ZoneSuggestion(
    phoneId: int, zoneId: Option<string>, matchType: MatchType, quality: Quality)

  /** PhoneTimeSuggestion without its debug info; utcTime None is a withdrawal. */
  datatype TimeSuggestion = TimeSuggestion(phoneId: int, utcTime: Option<TimedMillis>)
}
