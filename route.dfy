/**
 * The webhook handler `POST` of src/app/api/webhook/tive/route.ts: authenticate, take the
 * decoded body, validate it, check the coordinates, normalise, then write the audit row
 * and upsert the two canonical records, stopping at the first failure.
 */
module Route {
  import opened Wrappers
  import opened JsonValues
  import opened TiveSchema
  import opened Tive
  import opened Store

  /** The JSON body of a response. */
  datatype Body =
    | ErrorBody(error: string, details: Option<Errors>)
    | OkBody(status: string, sensorEventId: nat, locationEventId: nat, warnings: seq<string>)

  /** An HTTP response: status code and body. */
  datatype Response = Response(code: nat, body: Body)

  const Unauthorized := Response(401, ErrorBody("Unauthorized", None))
  const InvalidJson := Response(400, ErrorBody("Invalid JSON", None))
  const WarningSeparator := "; "

  /**
   * The `x-api-key` guard: the header is present and non-empty (JavaScript truthiness)
   * and equals the configured key, which may itself be unset.
   */
  predicate Authorized(apiKey: Option<string>, expectedKey: Option<string>)
  {
    apiKey.Some? && apiKey.value != "" && expectedKey == Some(apiKey.value)
  }

  /** Total length of a list of strings. */
  function TotalLength(parts: seq<string>): nat
  {
    if parts == [] then 0 else |parts[0]| + TotalLength(parts[1..])
  }

  /** `Array.prototype.join`: the parts in order with `sep` between neighbours. */
  function Join(parts: seq<string>, sep: string): (r: string)
    ensures |parts| == 1 ==> r == parts[0]
    ensures |parts| > 0 ==> |r| == TotalLength(parts) + (|parts| - 1) * |sep|
    ensures |parts| == 0 ==> r == ""
  {
    if |parts| == 0 then ""
    else if |parts| == 1 then parts[0]
    else parts[0] + sep + Join(parts[1..], sep)
  }

  /** Joining a longer list appends the separator and the new last part. */
  lemma {:induction false} JoinSnoc(parts: seq<string>, sep: string, last: string)
    requires |parts| > 0
    ensures Join(parts + [last], sep) == Join(parts, sep) + sep + last
  {
    if |parts| == 1 {
      assert (parts + [last])[1..] == [last];
    } else {
      assert (parts + [last])[1..] == parts[1..] + [last];
      JoinSnoc(parts[1..], sep, last);
    }
  }

  /** The audit row's `warnings`: the list joined with "; ", or null when it is empty. */
  function JoinedWarnings(warnings: seq<string>): (r: Option<string>)
    ensures r.None? <==> warnings == []
  {
    if |warnings| > 0 then Some(Join(warnings, WarningSeparator)) else None
  }

  /** The audit row written for an accepted payload. */
  function AuditOf(t: Payload, warnings: seq<string>): AuditRecord
  {
    AuditRecord(Provider, t.deviceId, t.deviceName, t.entryTimeEpoch, t, JoinedWarnings(warnings))
  }

  /** The audit row's warning text is the single message the epoch draws, if any. */
  lemma AuditWarningText(epochMs: int, now: int, warnings: seq<string>)
    requires PlausibilityWarnings(epochMs, now, warnings)
    ensures JoinedWarnings(warnings) ==
      if FarInFuture(epochMs, now) then Some(FutureWarning)
      else if VeryOld(epochMs, now) then Some(OldWarning)
      else None
  {
    WarningsDetermined(epochMs, now, warnings);
  }

  /** The request passes every check before the writes: key, body, schema, coordinates. */
  ghost predicate Accepted(apiKey: Option<string>, expectedKey: Option<string>, body: Option<Json>)
  {
    && Authorized(apiKey, expectedKey)
    && body.Some?
    && Validate(body.value).Ok?
    && ValidateLatLng(Validate(body.value).value.location.latitude,
                      Validate(body.value).value.location.longitude).None?
  }

  /**
   * A request gets past the checks exactly when the key matches, a body was decoded, the
   * document conforms to the schema and its coordinates are in range.
   */
  lemma AcceptedExactly(apiKey: Option<string>, expectedKey: Option<string>, body: Option<Json>)
    ensures Accepted(apiKey, expectedKey, body) <==>
              && Authorized(apiKey, expectedKey)
              && body.Some?
              && Conforms(body.value)
              && InRange(At(body.value, ["Location", "Latitude"]).value.num,
                         At(body.value, ["Location", "Longitude"]).value.num)
  {
    if body.Some? {
      ValidateAcceptsExactly(body.value);
      if Validate(body.value).Ok? {
        ValidateReadsRequired(body.value, Validate(body.value).value);
      }
    }
  }

  /**
   * `POST`: each rejection leaves the store exactly as it was; an accepted event appends
   * one audit row, then upserts the sensor record and the location record under the
   * payload's identity, and answers with both row ids and the timestamp warnings.
   */
  method Post(store: Store, apiKey: Option<string>, expectedKey: Option<string>, body: Option<Json>, now: int)
    returns (response: Response)
    requires store.Valid()
    modifies store
    ensures store.Valid()
    ensures !Authorized(apiKey, expectedKey) ==> response == Unauthorized && unchanged(store)
    ensures Authorized(apiKey, expectedKey) && body.None? ==> response == InvalidJson && unchanged(store)
    ensures Authorized(apiKey, expectedKey) && body.Some? && Validate(body.value).Err? ==>
              && response == Response(400, ErrorBody("Validation failed", Some(Validate(body.value).error)))
              && unchanged(store)
    ensures Authorized(apiKey, expectedKey) && body.Some? && Validate(body.value).Ok? && !Accepted(apiKey, expectedKey, body) ==>
              && var t := Validate(body.value).value;
              && response == Response(400, ErrorBody(ValidateLatLng(t.location.latitude, t.location.longitude).value, None))
              && unchanged(store)
    ensures Accepted(apiKey, expectedKey, body) ==>
              && var t := Validate(body.value).value;
              && var key := IdentityOf(t);
              && response.code == 200
              && response.body.OkBody?
              && response.body.status == "ok"
              && PlausibilityWarnings(t.entryTimeEpoch, now, response.body.warnings)
              && response.body.sensorEventId == UpsertId(old(store.sensors), old(store.nextSensorId), key)
              && response.body.locationEventId == UpsertId(old(store.locations), old(store.nextLocationId), key)
              && store.audit == old(store.audit) + [AuditOf(t, response.body.warnings)]
              && store.sensors == Upserted(old(store.sensors), old(store.nextSensorId), key, ToPxSensor(t))
              && store.locations == Upserted(old(store.locations), old(store.nextLocationId), key, ToPxLocation(t))
              && store.nextSensorId == NextIdAfter(old(store.sensors), old(store.nextSensorId), key)
              && store.nextLocationId == NextIdAfter(old(store.locations), old(store.nextLocationId), key)
              && store.writes == old(store.writes) + [AuditWrite, SensorWrite(key), LocationWrite(key)]
  {
    // 1) API key
    if !Authorized(apiKey, expectedKey) {
      return Unauthorized;
    }

    // 2) the body as decoded JSON
    if body.None? {
      return InvalidJson;
    }
    var json := body.value;

    // 3) schema
    var parsed := Validate(json);
    if parsed.Err? {
      return Response(400, ErrorBody("Validation failed", Some(parsed.error)));
    }
    var tive := parsed.value;

    // 4) coordinates
    var latErr := ValidateLatLng(tive.location.latitude, tive.location.longitude);
    if latErr.Some? {
      return Response(400, ErrorBody(latErr.value, None));
    }

    // 5) transform
    var sensor := ToPxSensor(tive);
    var location := ToPxLocation(tive);
    var warnings := TimestampWarnings(tive.entryTimeEpoch, now);

    // 6) raw event
    ghost var writes0 := store.writes;
    store.AppendAudit(AuditOf(tive, warnings));

    // 7) sensor row
    var sensorId := store.UpsertSensor(sensor);

    // 8) location row
    var locationId := store.UpsertLocation(location);
    assert store.writes == writes0 + [AuditWrite, SensorWrite(sensor.Key()), LocationWrite(location.Key())] by {
      SnocThree(writes0, AuditWrite, SensorWrite(sensor.Key()), LocationWrite(location.Key()));
    }

    // 9) success
    return Response(200, OkBody("ok", sensorId, locationId, warnings));
  }

  lemma SnocThree<T>(s: seq<T>, a: T, b: T, c: T)
    ensures s + [a] + [b] + [c] == s + [a, b, c]
  {
  }

  /**
   * Sending two accepted events with the same identity: both calls answer with the same
   * two ids, each table holds one row for that identity, and the rows hold the second
   * event's records; other rows are untouched and two audit rows were appended.
   */
  method ResendReplaces(store: Store, key: string, body1: Json, body2: Json, now: int)
    returns (first: Response, second: Response)
    requires store.Valid()
    requires Accepted(Some(key), Some(key), Some(body1)) && Accepted(Some(key), Some(key), Some(body2))
    requires IdentityOf(Validate(body1).value) == IdentityOf(Validate(body2).value)
    modifies store
    ensures store.Valid()
    ensures first.code == 200 && second.code == 200
    ensures first.body.OkBody? && second.body.OkBody?
    ensures first.body.sensorEventId == second.body.sensorEventId
    ensures first.body.locationEventId == second.body.locationEventId
    ensures PlausibilityWarnings(Validate(body1).value.entryTimeEpoch, now, first.body.warnings)
    ensures PlausibilityWarnings(Validate(body2).value.entryTimeEpoch, now, second.body.warnings)
    ensures |store.audit| == |old(store.audit)| + 2
    ensures var id := IdentityOf(Validate(body2).value);
            && store.sensors == Upserted(old(store.sensors), old(store.nextSensorId), id, ToPxSensor(Validate(body2).value))
            && store.locations == Upserted(old(store.locations), old(store.nextLocationId), id, ToPxLocation(Validate(body2).value))
  {
    ghost var id := IdentityOf(Validate(body2).value);
    ghost var sensors0, nextSensor0 := store.sensors, store.nextSensorId;
    ghost var locations0, nextLocation0 := store.locations, store.nextLocationId;
    first := Post(store, Some(key), Some(key), Some(body1), now);
    second := Post(store, Some(key), Some(key), Some(body2), now);
    UpsertTwice(sensors0, nextSensor0, id, ToPxSensor(Validate(body1).value), ToPxSensor(Validate(body2).value));
    UpsertTwice(locations0, nextLocation0, id, ToPxLocation(Validate(body1).value), ToPxLocation(Validate(body2).value));
  }

  /** A sample event: device D1 ("Truck1") at epoch 1700000000000, at (40, -70), with temperature `celsius`. */
  function ExampleEvent(celsius: real): Json
  {
    JObj(map[
      "DeviceId" := JStr("D1"),
      "DeviceName" := JStr("Truck1"),
      "EntryTimeEpoch" := JNum(1700000000000.0),
      "Temperature" := JObj(map["Celsius" := JNum(celsius)]),
      "Location" := JObj(map["Latitude" := JNum(40.0), "Longitude" := JNum(-70.0)])])
  }

  /** The payload the schema reads from the sample event. */
  function ExamplePayload(celsius: real): Payload
  {
    Payload("D1", "Truck1", 1700000000000, Temperature(celsius),
            Location(40.0, -70.0, None, None, None, None), None, None, None, None)
  }

  lemma ExampleIdentityFields(celsius: real)
    ensures NonEmptyStringAt(Field(ExampleEvent(celsius).fields, "DeviceId"), ["DeviceId"]) == Ok("D1")
    ensures NonEmptyStringAt(Field(ExampleEvent(celsius).fields, "DeviceName"), ["DeviceName"]) == Ok("Truck1")
    ensures EpochAt(Field(ExampleEvent(celsius).fields, "EntryTimeEpoch"), ["EntryTimeEpoch"]) == Ok(1700000000000)
  {
    assert IsInteger(1700000000000.0);
  }

  lemma ExampleMeasurementFields(celsius: real)
    ensures TemperatureAt(Field(ExampleEvent(celsius).fields, "Temperature"), ["Temperature"]) == Ok(Temperature(celsius))
    ensures LocationAt(Field(ExampleEvent(celsius).fields, "Location"), ["Location"])
            == Ok(Location(40.0, -70.0, None, None, None, None))
  {
  }

  lemma ExampleReadingFields(celsius: real)
    ensures NumberBlockAt(Field(ExampleEvent(celsius).fields, "Humidity"), ["Humidity"], "Percentage") == Ok(None)
    ensures NumberBlockAt(Field(ExampleEvent(celsius).fields, "Light"), ["Light"], "Lux") == Ok(None)
    ensures BatteryAt(Field(ExampleEvent(celsius).fields, "Battery"), ["Battery"]) == Ok(None)
    ensures NumberBlockAt(Field(ExampleEvent(celsius).fields, "Cellular"), ["Cellular"], "Dbm") == Ok(None)
  {
  }

  /** The sample event is accepted, filed under (D1, 1700000000000, Tive), with its temperature kept. */
  lemma ExampleAccepted(celsius: real)
    requires IsInteger(celsius * 100.0)
    ensures Validate(ExampleEvent(celsius)) == Ok(ExamplePayload(celsius))
    ensures Accepted(Some("k"), Some("k"), Some(ExampleEvent(celsius)))
    ensures IdentityOf(ExamplePayload(celsius)) == Identity("D1", 1700000000000, "Tive")
    ensures ToPxSensor(ExamplePayload(celsius)).payload.temperature == celsius
  {
    ExampleIdentityFields(celsius);
    ExampleMeasurementFields(celsius);
    ExampleReadingFields(celsius);
    RoundIsNearest(celsius * 100.0, (celsius * 100.0).Floor);
  }

  /**
   * The sample event end to end on an empty store: the first send creates one row per
   * table; re-sending with another temperature answers with the same two ids, raises no
   * warning, and leaves one sensor row that now holds the second temperature.
   */
  method ExampleResend(celsius1: real, celsius2: real) returns (store: Store, first: Response, second: Response)
    requires IsInteger(celsius1 * 100.0) && IsInteger(celsius2 * 100.0)
    ensures first.code == 200 && second.code == 200
    ensures first.body.OkBody? && second.body.OkBody?
    ensures first.body.sensorEventId == second.body.sensorEventId
    ensures first.body.locationEventId == second.body.locationEventId
    ensures first.body.warnings == [] && second.body.warnings == []
    ensures |store.sensors| == 1 && |store.locations| == 1
    ensures var key := Identity("D1", 1700000000000, "Tive");
            key in store.sensors && store.sensors[key].record.payload.temperature == celsius2
  {
    store := new Store();
    var now := 1700000000000;
    var key := Identity("D1", 1700000000000, "Tive");
    ExampleAccepted(celsius1);
    ExampleAccepted(celsius2);
    first, second := ResendReplaces(store, "k", ExampleEvent(celsius1), ExampleEvent(celsius2), now);
    PlausibleEpochNoWarning(1700000000000, now, first.body.warnings);
    PlausibleEpochNoWarning(1700000000000, now, second.body.warnings);
    UpsertRowCount(map[], 0, key, ToPxSensor(ExamplePayload(celsius2)));
    UpsertRowCount(map[], 0, key, ToPxLocation(ExamplePayload(celsius2)));
  }
}
