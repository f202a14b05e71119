/**
 * The rest of src/lib/tive.ts: the coordinate check, the timestamp plausibility
 * warnings, the rounding helpers and the two normalisers that turn a validated
 * payload into a sensor record and a location record.
 */
module Tive {
  import opened Wrappers
  import opened JsonValues
  import opened TiveSchema

  // ---- validateLatLng ----

  const LatitudeError := "Invalid latitude (must be -90..90)"
  const LongitudeError := "Invalid longitude (must be -180..180)"

  /** Both coordinates lie in their closed ranges. */
  predicate InRange(lat: real, lng: real)
  {
    -90.0 <= lat <= 90.0 && -180.0 <= lng <= 180.0
  }

  /**
   * `validateLatLng`: no message when both coordinates are in range (boundaries
   * included); otherwise the latitude message takes precedence over the longitude one.
   */
  function ValidateLatLng(lat: real, lng: real): (r: Option<string>)
    ensures r.None? <==> InRange(lat, lng)
    ensures !(-90.0 <= lat <= 90.0) ==> r == Some(LatitudeError)
    ensures -90.0 <= lat <= 90.0 && !(-180.0 <= lng <= 180.0) ==> r == Some(LongitudeError)
  {
    if lat < -90.0 || lat > 90.0 then Some(LatitudeError)
    else if lng < -180.0 || lng > 180.0 then Some(LongitudeError)
    else None
  }

  // ---- timestampWarnings ----

  /** 24 hours in milliseconds. */
  const DayMs: int := 24 * 60 * 60 * 1000
  /** Five 365-day years in milliseconds. */
  const FiveYearsMs: int := 5 * 365 * 24 * 60 * 60 * 1000

  const FutureWarning := "Timestamp far in the future"
  const OldWarning := "Timestamp very old"

  /** More than a day ahead of the processing time. */
  predicate FarInFuture(epochMs: int, now: int)
  {
    epochMs > now + DayMs
  }

  /** More than five years behind the processing time. */
  predicate VeryOld(epochMs: int, now: int)
  {
    epochMs < now - FiveYearsMs
  }

  /**
   * What the warnings for an epoch are: each of the two messages is present exactly when
   * its condition holds, nothing else is present and nothing is repeated.
   */
  predicate PlausibilityWarnings(epochMs: int, now: int, warnings: seq<string>)
  {
    && (FutureWarning in warnings <==> FarInFuture(epochMs, now))
    && (OldWarning in warnings <==> VeryOld(epochMs, now))
    && (forall w :: w in warnings ==> w == FutureWarning || w == OldWarning)
    && (forall i, k :: 0 <= i < k < |warnings| ==> warnings[i] != warnings[k])
  }

  /**
   * `timestampWarnings`, with the clock reading `now` passed in: collects the advisory
   * messages in a local list, the future check first.
   */
  method TimestampWarnings(epochMs: int, now: int) returns (warnings: seq<string>)
    ensures PlausibilityWarnings(epochMs, now, warnings)
  {
    warnings := [];
    if epochMs > now + 24 * 60 * 60 * 1000 {
      warnings := warnings + [FutureWarning];
    }
    if epochMs < now - 5 * 365 * 24 * 60 * 60 * 1000 {
      warnings := warnings + [OldWarning];
    }
  }

  /** The leading elements of a list are among its elements. */
  lemma HeadsPresent(s: seq<string>)
    requires |s| >= 1
    ensures s[0] in s
    ensures |s| >= 2 ==> s[1] in s
  {
  }

  /** The two thresholds are disjoint, so an epoch draws at most one warning. */
  lemma AtMostOneWarning(epochMs: int, now: int, warnings: seq<string>)
    requires PlausibilityWarnings(epochMs, now, warnings)
    ensures |warnings| <= 1
  {
    if |warnings| >= 2 {
      HeadsPresent(warnings);
      assert false;
    }
  }

  /** An epoch within the plausible window, both thresholds included, draws no warning. */
  lemma PlausibleEpochNoWarning(epochMs: int, now: int, warnings: seq<string>)
    requires PlausibilityWarnings(epochMs, now, warnings)
    requires now - FiveYearsMs <= epochMs <= now + DayMs
    ensures warnings == []
  {
    if warnings != [] {
      HeadsPresent(warnings);
      assert false;
    }
  }

  /** The warnings are determined by the epoch and the clock: far ahead, very old, or none. */
  lemma WarningsDetermined(epochMs: int, now: int, warnings: seq<string>)
    requires PlausibilityWarnings(epochMs, now, warnings)
    ensures warnings ==
      if FarInFuture(epochMs, now) then [FutureWarning]
      else if VeryOld(epochMs, now) then [OldWarning]
      else []
  {
    AtMostOneWarning(epochMs, now, warnings);
    if FarInFuture(epochMs, now) || VeryOld(epochMs, now) {
      assert |warnings| == 1 && warnings[0] in warnings;
    } else {
      PlausibleEpochNoWarning(epochMs, now, warnings);
    }
  }

  // ---- r1 / r2 ----

  /**
   * `Math.round`: the integer nearest to x, a tie going to the larger integer
   * (so -2.5 rounds to -2, not to -3).
   */
  function Round(x: real): (n: int)
    ensures x - 0.5 < n as real <= x + 0.5
  {
    (x + 0.5).Floor
  }

  /** The nearest-integer property pins Round down: no other integer satisfies it. */
  lemma RoundIsNearest(x: real, n: int)
    requires x - 0.5 < n as real <= x + 0.5
    ensures Round(x) == n
  {
    var m := Round(x);
    assert (m - n) as real < 1.0 && (n - m) as real < 1.0;
  }

  /** `r1`: round to one decimal place. */
  function R1(x: real): (r: real)
    ensures IsInteger(r * 10.0)
    ensures -0.05 < r - x <= 0.05
  {
    Round(x * 10.0) as real / 10.0
  }

  /** `r2`: round to two decimal places. */
  function R2(x: real): (r: real)
    ensures IsInteger(r * 100.0)
    ensures -0.005 < r - x <= 0.005
  {
    Round(x * 100.0) as real / 100.0
  }

  /** Rounding a whole number leaves it unchanged. */
  lemma RoundInteger(n: int)
    ensures Round(n as real) == n
  {
    RoundIsNearest(n as real, n);
  }

  lemma R1Idempotent(x: real)
    ensures R1(R1(x)) == R1(x)
  {
    var n := Round(x * 10.0);
    assert R1(x) * 10.0 == n as real;
    RoundInteger(n);
  }

  lemma R2Idempotent(x: real)
    ensures R2(R2(x)) == R2(x)
  {
    var n := Round(x * 100.0);
    assert R2(x) * 100.0 == n as real;
    RoundInteger(n);
  }

  /** Worked values: 21.2349 stores as 21.23, 55.26 as 55.3, and a tie at -0.125 goes up to -0.12. */
  lemma RoundingExamples()
    ensures R2(21.2349) == 21.23
    ensures R1(55.26) == 55.3
    ensures R2(-0.125) == -0.12
  {
    RoundIsNearest(2123.49, 2123);
    RoundIsNearest(552.6, 553);
    RoundIsNearest(-12.5, -12);
  }

  // ---- toPxSensor / toPxLocation ----

  const Provider := "Tive"
  const EventType := "Active"

  /** The identity of a canonical record: at most one record per triple in each table. */
  datatype Identity = Identity(deviceimei: string, timestamp: int, provider: string)

  datatype SensorPayload = SensorPayload(
    deviceId: string,
    deviceImei: string,
    timestamp: int,
    provider: string,
    eventType: string,
    temperature: real,
    humidity: Option<real>,
    lightLevel: Option<real>)

  datatype SensorRecord = SensorRecord(deviceimei: string, timestamp: int, provider: string, payload: SensorPayload)
  {
    function Key(): Identity { Identity(deviceimei, timestamp, provider) }
  }

  datatype LocationPayload = LocationPayload(
    deviceId: string,
    deviceImei: string,
    timestamp: int,
    provider: string,
    eventType: string,
    latitude: real,
    longitude: real,
    locationAccuracy: Option<real>,
    locationSource: Option<string>,
    batteryLevel: Option<int>,
    cellularDbm: Option<real>,
    wifiAccessPoints: Option<int>)

  datatype LocationRecord = LocationRecord(deviceimei: string, timestamp: int, provider: string, payload: LocationPayload)
  {
    function Key(): Identity { Identity(deviceimei, timestamp, provider) }
  }

  /** The identity every record derived from a payload is filed under. */
  function IdentityOf(t: Payload): Identity
  {
    Identity(t.deviceId, t.entryTimeEpoch, Provider)
  }

  /** The inner payload repeats the record's identity and names the device by its display name. */
  ghost predicate DescribesSensor(r: SensorRecord, t: Payload)
  {
    && r.payload.deviceId == t.deviceName
    && r.payload.deviceImei == r.deviceimei
    && r.payload.timestamp == r.timestamp
    && r.payload.provider == r.provider
    && r.payload.eventType == EventType
  }

  ghost predicate DescribesLocation(r: LocationRecord, t: Payload)
  {
    && r.payload.deviceId == t.deviceName
    && r.payload.deviceImei == r.deviceimei
    && r.payload.timestamp == r.timestamp
    && r.payload.provider == r.provider
    && r.payload.eventType == EventType
  }

  /**
   * `toPxSensor`: the sensor record, filed under the payload's identity, with the
   * temperature kept to hundredths and humidity and light to tenths, each within half
   * a unit of the reading; a missing humidity or light stays missing.
   */
  function ToPxSensor(t: Payload): (r: SensorRecord)
    ensures r.Key() == IdentityOf(t)
    ensures DescribesSensor(r, t)
    ensures IsInteger(r.payload.temperature * 100.0)
    ensures -0.005 < r.payload.temperature - t.temperature.celsius <= 0.005
    ensures r.payload.humidity.None? <==> t.humidity.None?
    ensures t.humidity.Some? ==> r.payload.humidity == Some(R1(t.humidity.value.percentage))
    ensures r.payload.lightLevel.None? <==> t.light.None?
    ensures t.light.Some? ==> r.payload.lightLevel == Some(R1(t.light.value.lux))
  {
    SensorRecord(
      t.deviceId, t.entryTimeEpoch, Provider,
      SensorPayload(
        t.deviceName, t.deviceId, t.entryTimeEpoch, Provider, EventType,
        R2(t.temperature.celsius),
        if t.humidity.Some? then Some(R1(t.humidity.value.percentage)) else None,
        if t.light.Some? then Some(R1(t.light.value.lux)) else None))
  }

  /**
   * `toPxLocation`: the location record, filed under the payload's identity, with the
   * coordinates copied unrounded and every optional value passed through `?? null`:
   * missing exactly when the source value is missing, otherwise that value, zero included.
   */
  function ToPxLocation(t: Payload): (r: LocationRecord)
    ensures r.Key() == IdentityOf(t)
    ensures DescribesLocation(r, t)
    ensures r.payload.latitude == t.location.latitude && r.payload.longitude == t.location.longitude
    ensures r.payload.locationAccuracy.None? <==> (t.location.accuracy.None? || t.location.accuracy.value.meters.None?)
    ensures r.payload.locationAccuracy.Some? ==> r.payload.locationAccuracy == t.location.accuracy.value.meters
    ensures r.payload.locationSource == t.location.locationMethod
    ensures r.payload.batteryLevel.None? <==> t.battery.None?
    ensures t.battery.Some? ==> r.payload.batteryLevel == Some(t.battery.value.percentage)
    ensures r.payload.cellularDbm.None? <==> t.cellular.None?
    ensures t.cellular.Some? ==> r.payload.cellularDbm == Some(t.cellular.value.dbm)
    ensures r.payload.wifiAccessPoints == t.location.wifiAccessPointUsedCount
  {
    LocationRecord(
      t.deviceId, t.entryTimeEpoch, Provider,
      LocationPayload(
        t.deviceName, t.deviceId, t.entryTimeEpoch, Provider, EventType,
        t.location.latitude,
        t.location.longitude,
        if t.location.accuracy.Some? then t.location.accuracy.value.meters else None,
        t.location.locationMethod,
        if t.battery.Some? then Some(t.battery.value.percentage) else None,
        if t.cellular.Some? then Some(t.cellular.value.dbm) else None,
        t.location.wifiAccessPointUsedCount))
  }

  /** The two records derived from one payload are filed under one identity triple. */
  lemma RecordsShareIdentity(t: Payload)
    ensures ToPxSensor(t).Key() == ToPxLocation(t).Key() == Identity(t.deviceId, t.entryTimeEpoch, "Tive")
  {
  }

  /** The formatted address is validated but carried into neither record. */
  lemma FormattedAddressDropped(t: Payload, address: Option<string>)
    ensures ToPxSensor(t.(location := t.location.(formattedAddress := address))) == ToPxSensor(t)
    ensures ToPxLocation(t.(location := t.location.(formattedAddress := address))) == ToPxLocation(t)
  {
  }

  // ---- from the received document to the stored values ----

  /**
   * The sensor values an accepted document yields: the temperature is its Celsius reading
   * rounded to hundredths; humidity and light are missing exactly when their block is
   * absent or null, and otherwise the block's reading rounded to tenths.
   */
  lemma SensorReadsDocument(j: Json, t: Payload)
    requires Validate(j) == Ok(t)
    ensures IsNumber(At(j, ["Temperature", "Celsius"]))
    ensures ToPxSensor(t).payload.temperature == R2(At(j, ["Temperature", "Celsius"]).value.num)
    ensures ToPxSensor(t).payload.humidity.None? <==> Nullish(At(j, ["Humidity"]))
    ensures !Nullish(At(j, ["Humidity"])) ==>
              && IsNumber(At(j, ["Humidity", "Percentage"]))
              && ToPxSensor(t).payload.humidity == Some(R1(At(j, ["Humidity", "Percentage"]).value.num))
    ensures ToPxSensor(t).payload.lightLevel.None? <==> Nullish(At(j, ["Light"]))
    ensures !Nullish(At(j, ["Light"])) ==>
              && IsNumber(At(j, ["Light", "Lux"]))
              && ToPxSensor(t).payload.lightLevel == Some(R1(At(j, ["Light", "Lux"]).value.num))
  {
    ValidateReadsRequired(j, t);
    ValidateReadsReadings(j, t);
  }

  /**
   * The location values an accepted document yields: each optional value is missing
   * exactly when absent or null in the document and otherwise is the document's value
   * unchanged, so a reported zero is stored as zero, not as missing.
   */
  lemma LocationReadsDocument(j: Json, t: Payload)
    requires Validate(j) == Ok(t)
    ensures ToPxLocation(t).payload.batteryLevel.None? <==> Nullish(At(j, ["Battery"]))
    ensures ToPxLocation(t).payload.batteryLevel.Some? ==>
              At(j, ["Battery", "Percentage"]) == Some(JNum(ToPxLocation(t).payload.batteryLevel.value as real))
    ensures ToPxLocation(t).payload.cellularDbm.None? <==> Nullish(At(j, ["Cellular"]))
    ensures ToPxLocation(t).payload.cellularDbm.Some? ==>
              At(j, ["Cellular", "Dbm"]) == Some(JNum(ToPxLocation(t).payload.cellularDbm.value))
    ensures ToPxLocation(t).payload.locationAccuracy.None? <==>
              (Nullish(At(j, ["Location", "Accuracy"])) || Nullish(At(j, ["Location", "Accuracy", "Meters"])))
    ensures ToPxLocation(t).payload.locationAccuracy.Some? ==>
              At(j, ["Location", "Accuracy", "Meters"]) == Some(JNum(ToPxLocation(t).payload.locationAccuracy.value))
    ensures ToPxLocation(t).payload.wifiAccessPoints.None? <==> Nullish(At(j, ["Location", "WifiAccessPointUsedCount"]))
    ensures ToPxLocation(t).payload.wifiAccessPoints.Some? ==>
              At(j, ["Location", "WifiAccessPointUsedCount"]) == Some(JNum(ToPxLocation(t).payload.wifiAccessPoints.value as real))
    ensures ToPxLocation(t).payload.locationSource.None? <==> Nullish(At(j, ["Location", "LocationMethod"]))
    ensures ToPxLocation(t).payload.locationSource.Some? ==>
              At(j, ["Location", "LocationMethod"]) == Some(JStr(ToPxLocation(t).payload.locationSource.value))
  {
    ValidateReadsReadings(j, t);
    ValidateReadsLocation(j, t);
  }

  /** A battery block reporting 0 % is stored as 0, not as "not reported". */
  lemma ZeroBatteryKept(j: Json, t: Payload)
    requires Validate(j) == Ok(t)
    requires At(j, ["Battery", "Percentage"]) == Some(JNum(0.0))
    ensures ToPxLocation(t).payload.batteryLevel == Some(0)
  {
    ValidateReadsReadings(j, t);
    if t.battery.None? {
      AtTwo(j, "Battery", "Percentage");
      AtOne(j, "Battery");
    }
  }
}
