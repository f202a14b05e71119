/**
 * The zod schema `TiveSchema` of src/lib/tive.ts: a shape check over a decoded JSON
 * document that either yields a typed payload or the set of paths of the fields at
 * fault. Unknown keys are dropped; an optional block that is absent and one that is
 * `null` both become None.
 */
module TiveSchema {
  import opened Wrappers
  import opened JsonValues

  /** The paths of the offending values (what zod's issues point at). */
  type Errors = set<Path>

  datatype Temperature = Temperature(celsius: real)

  datatype Accuracy = Accuracy(meters: Option<real>)

  datatype Location = Location(
    latitude: real,
    longitude: real,
    formattedAddress: Option<string>,
    locationMethod: Option<string>,
    accuracy: Option<Accuracy>,
    wifiAccessPointUsedCount: Option<int>)

  datatype Humidity = Humidity(percentage: real)

  datatype Light = Light(lux: real)

  datatype Battery = Battery(percentage: int)

  datatype Cellular = Cellular(dbm: real)

  /** `TivePayload`, the type zod infers from the schema. */
  datatype Payload = Payload(
    deviceId: string,
    deviceName: string,
    entryTimeEpoch: int,
    temperature: Temperature,
    location: Location,
    humidity: Option<Humidity>,
    light: Option<Light>,
    battery: Option<Battery>,
    cellular: Option<Cellular>)

  /** The constraints the schema places on the values it lets through. */
  predicate WellFormed(p: Payload)
  {
    && |p.deviceId| > 0
    && |p.deviceName| > 0
    && p.entryTimeEpoch >= 0
    && (p.battery.Some? ==> 0 <= p.battery.value.percentage <= 100)
  }

  /** The device identity fields: two non-empty strings and a non-negative whole epoch. */
  ghost predicate ConformsIdentity(j: Json)
  {
    && IsString(At(j, ["DeviceId"])) && |At(j, ["DeviceId"]).value.str| > 0
    && IsString(At(j, ["DeviceName"])) && |At(j, ["DeviceName"]).value.str| > 0
    && IsNumber(At(j, ["EntryTimeEpoch"]))
    && IsInteger(At(j, ["EntryTimeEpoch"]).value.num) && At(j, ["EntryTimeEpoch"]).value.num >= 0.0
  }

  /** The required `Temperature` block with its numeric reading. */
  ghost predicate ConformsTemperature(j: Json)
  {
    IsObject(At(j, ["Temperature"])) && IsNumber(At(j, ["Temperature", "Celsius"]))
  }

  /** The required `Location` block: numeric coordinates, the rest optional or null. */
  ghost predicate ConformsLocation(j: Json)
  {
    && IsObject(At(j, ["Location"]))
    && IsNumber(At(j, ["Location", "Latitude"]))
    && IsNumber(At(j, ["Location", "Longitude"]))
    && (Nullish(At(j, ["Location", "FormattedAddress"])) || IsString(At(j, ["Location", "FormattedAddress"])))
    && (Nullish(At(j, ["Location", "LocationMethod"])) || IsString(At(j, ["Location", "LocationMethod"])))
    && (Nullish(At(j, ["Location", "Accuracy"])) ||
        (IsObject(At(j, ["Location", "Accuracy"])) &&
         (Nullish(At(j, ["Location", "Accuracy", "Meters"])) || IsNumber(At(j, ["Location", "Accuracy", "Meters"])))))
    && (Nullish(At(j, ["Location", "WifiAccessPointUsedCount"])) ||
        (IsNumber(At(j, ["Location", "WifiAccessPointUsedCount"])) &&
         IsInteger(At(j, ["Location", "WifiAccessPointUsedCount"]).value.num)))
  }

  /** The optional reading blocks: each absent, null, or an object with a well-typed value. */
  ghost predicate ConformsReadings(j: Json)
  {
    && (Nullish(At(j, ["Humidity"])) ||
        (IsObject(At(j, ["Humidity"])) && IsNumber(At(j, ["Humidity", "Percentage"]))))
    && (Nullish(At(j, ["Light"])) ||
        (IsObject(At(j, ["Light"])) && IsNumber(At(j, ["Light", "Lux"]))))
    && (Nullish(At(j, ["Battery"])) ||
        (IsObject(At(j, ["Battery"])) && IsNumber(At(j, ["Battery", "Percentage"])) &&
         IsInteger(At(j, ["Battery", "Percentage"]).value.num) &&
         0.0 <= At(j, ["Battery", "Percentage"]).value.num <= 100.0))
    && (Nullish(At(j, ["Cellular"])) ||
        (IsObject(At(j, ["Cellular"])) && IsNumber(At(j, ["Cellular", "Dbm"]))))
  }

  /**
   * When a document is accepted, stated key path by key path over the whole document:
   * the declarative reading of the schema, independent of how Validate gathers issues.
   */
  ghost predicate Conforms(j: Json)
  {
    j.JObj? && ConformsIdentity(j) && ConformsTemperature(j) && ConformsLocation(j) && ConformsReadings(j)
  }

  // ---- zod's primitive checks; each reports one issue at its own path ----

  function ErrorsOf<T>(r: Result<T, Errors>): Errors
  {
    if r.Ok? then {} else r.error
  }

  /** The issues of a failed check are non-empty and all lie at or below the check's path. */
  ghost predicate IssuesUnder<T>(r: Result<T, Errors>, path: Path)
  {
    r.Err? ==> r.error != {} && forall q :: q in r.error ==> path <= q
  }

  /** A required string of at least one character (tive.ts:4-5). */
  function NonEmptyStringAt(v: Option<Json>, path: Path): (r: Result<string, Errors>)
    ensures IssuesUnder(r, path)
  {
    if IsString(v) && |v.value.str| >= 1 then Ok(v.value.str) else Err({path})
  }

  /** A required whole number that is not negative (tive.ts:6). */
  function EpochAt(v: Option<Json>, path: Path): (r: Result<int, Errors>)
    ensures IssuesUnder(r, path)
    ensures r.Ok? ==> r.value >= 0 && v == Some(JNum(r.value as real))
  {
    if IsNumber(v) && IsInteger(v.value.num) && v.value.num >= 0.0 then Ok(v.value.num.Floor)
    else Err({path})
  }

  /** A required number (tive.ts:8, 11-12). */
  function NumberAt(v: Option<Json>, path: Path): (r: Result<real, Errors>)
    ensures IssuesUnder(r, path)
  {
    if IsNumber(v) then Ok(v.value.num) else Err({path})
  }

  /** A string that may also be absent or null (tive.ts:13-14). */
  function NullableStringAt(v: Option<Json>, path: Path): (r: Result<Option<string>, Errors>)
    ensures IssuesUnder(r, path)
  {
    if Nullish(v) then Ok(None)
    else if IsString(v) then Ok(Some(v.value.str))
    else Err({path})
  }

  /** A number that may also be absent or null (tive.ts:17). */
  function NullableNumberAt(v: Option<Json>, path: Path): (r: Result<Option<real>, Errors>)
    ensures IssuesUnder(r, path)
  {
    if Nullish(v) then Ok(None)
    else if IsNumber(v) then Ok(Some(v.value.num))
    else Err({path})
  }

  /** A whole number that may also be absent or null (tive.ts:21). */
  function NullableIntegerAt(v: Option<Json>, path: Path): (r: Result<Option<int>, Errors>)
    ensures IssuesUnder(r, path)
    ensures r.Ok? && r.value.Some? ==> v == Some(JNum(r.value.value as real))
  {
    if Nullish(v) then Ok(None)
    else if IsNumber(v) && IsInteger(v.value.num) then Ok(Some(v.value.num.Floor))
    else Err({path})
  }

  // ---- the object blocks of the schema ----

  /** The required Temperature block: an object whose Celsius is a number (tive.ts:7-9). */
  function TemperatureAt(v: Option<Json>, path: Path): (r: Result<Temperature, Errors>)
    ensures IssuesUnder(r, path)
  {
    if !IsObject(v) then Err({path})
    else
      match NumberAt(Field(v.value.fields, "Celsius"), path + ["Celsius"])
      case Err(e) => Err(e)
      case Ok(c) => Ok(Temperature(c))
  }

  /** The optional Accuracy block: absent, null, or an object whose Meters is a number, absent or null (tive.ts:15-20). */
  function AccuracyAt(v: Option<Json>, path: Path): (r: Result<Option<Accuracy>, Errors>)
    ensures IssuesUnder(r, path)
  {
    if Nullish(v) then Ok(None)
    else if !IsObject(v) then Err({path})
    else
      match NullableNumberAt(Field(v.value.fields, "Meters"), path + ["Meters"])
      case Err(e) => Err(e)
      case Ok(m) => Ok(Some(Accuracy(m)))
  }

  /** The required `Location` block; every one of its fields is checked and all issues are kept. */
  function LocationAt(v: Option<Json>, path: Path): (r: Result<Location, Errors>)
    ensures IssuesUnder(r, path)
  {
    if !IsObject(v) then Err({path})
    else
      var o := v.value.fields;
      var lat := NumberAt(Field(o, "Latitude"), path + ["Latitude"]);
      var lng := NumberAt(Field(o, "Longitude"), path + ["Longitude"]);
      var address := NullableStringAt(Field(o, "FormattedAddress"), path + ["FormattedAddress"]);
      var source := NullableStringAt(Field(o, "LocationMethod"), path + ["LocationMethod"]);
      var accuracy := AccuracyAt(Field(o, "Accuracy"), path + ["Accuracy"]);
      var wifi := NullableIntegerAt(Field(o, "WifiAccessPointUsedCount"), path + ["WifiAccessPointUsedCount"]);
      var errors := ErrorsOf(lat) + ErrorsOf(lng) + ErrorsOf(address) + ErrorsOf(source)
                    + ErrorsOf(accuracy) + ErrorsOf(wifi);
      if errors != {} then Err(errors)
      else Ok(Location(lat.value, lng.value, address.value, source.value, accuracy.value, wifi.value))
  }

  /** An optional one-number block (Humidity, Light, Cellular): absent, null, or an object whose `key` is a number (tive.ts:23-34, 41-46). */
  function NumberBlockAt(v: Option<Json>, path: Path, key: string): (r: Result<Option<real>, Errors>)
    ensures IssuesUnder(r, path)
    ensures r.Ok? ==> (r.value.None? <==> Nullish(v))
    ensures r.Ok? && r.value.Some? ==> IsObject(v) && Field(v.value.fields, key) == Some(JNum(r.value.value))
  {
    if Nullish(v) then Ok(None)
    else if !IsObject(v) then Err({path})
    else
      match NumberAt(Field(v.value.fields, key), path + [key])
      case Err(e) => Err(e)
      case Ok(n) => Ok(Some(n))
  }

  /** The optional Battery block: absent, null, or an object whose Percentage is a whole number in [0,100] (tive.ts:35-40). */
  function BatteryAt(v: Option<Json>, path: Path): (r: Result<Option<Battery>, Errors>)
    ensures IssuesUnder(r, path)
    ensures r.Ok? && r.value.Some? ==> 0 <= r.value.value.percentage <= 100
    ensures r.Ok? ==> (r.value.None? <==> Nullish(v))
    ensures r.Ok? && r.value.Some? ==>
              IsObject(v) && Field(v.value.fields, "Percentage") == Some(JNum(r.value.value.percentage as real))
  {
    if Nullish(v) then Ok(None)
    else if !IsObject(v) then Err({path})
    else
      var pct := Field(v.value.fields, "Percentage");
      if IsNumber(pct) && IsInteger(pct.value.num) && 0.0 <= pct.value.num <= 100.0
      then Ok(Some(Battery(pct.value.num.Floor)))
      else Err({path + ["Percentage"]})
  }

  /**
   * `TiveSchema.safeParse(json)`: Ok with the typed payload, or Err with the paths of
   * every field at fault. A document that is not an object is one issue at the root.
   */
  function Validate(j: Json): (r: Result<Payload, Errors>)
    ensures r.Err? ==> r.error != {}
    ensures r.Ok? ==> WellFormed(r.value)
  {
    if !j.JObj? then Err({[]})
    else
      var o := j.fields;
      var id := NonEmptyStringAt(Field(o, "DeviceId"), ["DeviceId"]);
      var name := NonEmptyStringAt(Field(o, "DeviceName"), ["DeviceName"]);
      var epoch := EpochAt(Field(o, "EntryTimeEpoch"), ["EntryTimeEpoch"]);
      var temperature := TemperatureAt(Field(o, "Temperature"), ["Temperature"]);
      var location := LocationAt(Field(o, "Location"), ["Location"]);
      var humidity := NumberBlockAt(Field(o, "Humidity"), ["Humidity"], "Percentage");
      var light := NumberBlockAt(Field(o, "Light"), ["Light"], "Lux");
      var battery := BatteryAt(Field(o, "Battery"), ["Battery"]);
      var cellular := NumberBlockAt(Field(o, "Cellular"), ["Cellular"], "Dbm");
      var errors := ErrorsOf(id) + ErrorsOf(name) + ErrorsOf(epoch) + ErrorsOf(temperature)
                    + ErrorsOf(location) + ErrorsOf(humidity) + ErrorsOf(light)
                    + ErrorsOf(battery) + ErrorsOf(cellular);
      if errors != {} then Err(errors)
      else
        Ok(Payload(
          id.value, name.value, epoch.value, temperature.value, location.value,
          if humidity.value.Some? then Some(Humidity(humidity.value.value)) else None,
          if light.value.Some? then Some(Light(light.value.value)) else None,
          battery.value,
          if cellular.value.Some? then Some(Cellular(cellular.value.value)) else None))
  }

  // ---- what the schema accepts and what it reports ----

  /** A one-key path of an object is a field lookup. */
  lemma AtKey(j: Json, k: string)
    requires j.JObj?
    ensures At(j, [k]) == Field(j.fields, k)
  {
    AtOne(j, k);
  }

  /** A two-key path of an object is a lookup in the block named by the first key. */
  lemma AtBlockKey(j: Json, a: string, b: string)
    requires j.JObj?
    ensures At(j, [a, b]) ==
      (if IsObject(Field(j.fields, a)) then Field(Field(j.fields, a).value.fields, b) else None)
  {
    AtTwo(j, a, b);
  }

  lemma IdentityAcceptsExactly(j: Json)
    requires j.JObj?
    ensures (NonEmptyStringAt(Field(j.fields, "DeviceId"), ["DeviceId"]).Ok?
             && NonEmptyStringAt(Field(j.fields, "DeviceName"), ["DeviceName"]).Ok?
             && EpochAt(Field(j.fields, "EntryTimeEpoch"), ["EntryTimeEpoch"]).Ok?)
            <==> ConformsIdentity(j)
  {
    AtKey(j, "DeviceId");
    AtKey(j, "DeviceName");
    AtKey(j, "EntryTimeEpoch");
  }

  lemma TemperatureAcceptsExactly(j: Json)
    requires j.JObj?
    ensures TemperatureAt(Field(j.fields, "Temperature"), ["Temperature"]).Ok? <==> ConformsTemperature(j)
  {
    AtKey(j, "Temperature");
    AtBlockKey(j, "Temperature", "Celsius");
  }

  lemma LocationAcceptsExactly(j: Json)
    requires j.JObj?
    ensures LocationAt(Field(j.fields, "Location"), ["Location"]).Ok? <==> ConformsLocation(j)
  {
    AtKey(j, "Location");
    AtBlockKey(j, "Location", "Latitude");
    AtBlockKey(j, "Location", "Longitude");
    AtBlockKey(j, "Location", "FormattedAddress");
    AtBlockKey(j, "Location", "LocationMethod");
    AtBlockKey(j, "Location", "Accuracy");
    AtBlockKey(j, "Location", "WifiAccessPointUsedCount");
    AtThree(j, "Location", "Accuracy", "Meters");
    if IsObject(Field(j.fields, "Location")) {
      AtBlockKey(j.fields["Location"], "Accuracy", "Meters");
    }
  }

  lemma ReadingsAcceptExactly(j: Json)
    requires j.JObj?
    ensures (NumberBlockAt(Field(j.fields, "Humidity"), ["Humidity"], "Percentage").Ok?
             && NumberBlockAt(Field(j.fields, "Light"), ["Light"], "Lux").Ok?
             && BatteryAt(Field(j.fields, "Battery"), ["Battery"]).Ok?
             && NumberBlockAt(Field(j.fields, "Cellular"), ["Cellular"], "Dbm").Ok?)
            <==> ConformsReadings(j)
  {
    AtKey(j, "Humidity");
    AtKey(j, "Light");
    AtKey(j, "Battery");
    AtKey(j, "Cellular");
    AtBlockKey(j, "Humidity", "Percentage");
    AtBlockKey(j, "Light", "Lux");
    AtBlockKey(j, "Battery", "Percentage");
    AtBlockKey(j, "Cellular", "Dbm");
  }

  /** The schema accepts a document exactly when it conforms, key path by key path. */
  lemma ValidateAcceptsExactly(j: Json)
    ensures Validate(j).Ok? <==> Conforms(j)
  {
    if j.JObj? {
      IdentityAcceptsExactly(j);
      TemperatureAcceptsExactly(j);
      LocationAcceptsExactly(j);
      ReadingsAcceptExactly(j);
    }
  }

  /** The keys the schema requires at the top level of the payload. */
  const RequiredKeys: set<string> := {"DeviceId", "DeviceName", "EntryTimeEpoch", "Temperature", "Location"}

  /** A document that is not an object is rejected with a single issue at the root. */
  lemma NonObjectRejectedAtRoot(j: Json)
    requires !j.JObj?
    ensures Validate(j) == Err({[]})
  {
  }

  /** A missing required field is rejected, and the issues name that field by its path. */
  lemma MissingRequiredReported(j: Json, k: string)
    requires j.JObj? && k in RequiredKeys && k !in j.fields
    ensures Validate(j).Err? && [k] in Validate(j).error
  {
    var o := j.fields;
    assert Field(o, k) == None;
    if k == "DeviceId" {
      assert ErrorsOf(NonEmptyStringAt(Field(o, "DeviceId"), ["DeviceId"])) == {[k]};
    } else if k == "DeviceName" {
      assert ErrorsOf(NonEmptyStringAt(Field(o, "DeviceName"), ["DeviceName"])) == {[k]};
    } else if k == "EntryTimeEpoch" {
      assert ErrorsOf(EpochAt(Field(o, "EntryTimeEpoch"), ["EntryTimeEpoch"])) == {[k]};
    } else if k == "Temperature" {
      assert ErrorsOf(TemperatureAt(Field(o, "Temperature"), ["Temperature"])) == {[k]};
    } else {
      assert ErrorsOf(LocationAt(Field(o, "Location"), ["Location"])) == {[k]};
    }
  }

  /** The required fields that sit inside a required block (tive.ts:8, 11-12). */
  predicate RequiredNested(block: string, k: string)
  {
    (block == "Temperature" && k == "Celsius")
    || (block == "Location" && (k == "Latitude" || k == "Longitude"))
  }

  /** A required block that lacks one of its required fields is rejected at that field's nested path. */
  lemma MissingNestedReported(j: Json, block: string, k: string)
    requires j.JObj? && RequiredNested(block, k)
    requires IsObject(Field(j.fields, block)) && k !in Field(j.fields, block).value.fields
    ensures Validate(j).Err? && [block, k] in Validate(j).error
  {
    var o := j.fields;
    var b := Field(o, block);
    assert Field(b.value.fields, k) == None;
    assert [block] + [k] == [block, k];
    assert NumberAt(Field(b.value.fields, k), [block] + [k]) == Err({[block, k]});
    if block == "Temperature" {
      assert ErrorsOf(TemperatureAt(b, [block])) == {[block, k]};
    } else {
      assert [block, k] in ErrorsOf(LocationAt(b, [block]));
    }
  }

  /** An accepted document's required values are carried into the payload unchanged. */
  lemma ValidateReadsRequired(j: Json, p: Payload)
    requires Validate(j) == Ok(p)
    ensures At(j, ["DeviceId"]) == Some(JStr(p.deviceId))
    ensures At(j, ["DeviceName"]) == Some(JStr(p.deviceName))
    ensures At(j, ["EntryTimeEpoch"]) == Some(JNum(p.entryTimeEpoch as real))
    ensures At(j, ["Temperature", "Celsius"]) == Some(JNum(p.temperature.celsius))
    ensures At(j, ["Location", "Latitude"]) == Some(JNum(p.location.latitude))
    ensures At(j, ["Location", "Longitude"]) == Some(JNum(p.location.longitude))
  {
    AtKey(j, "DeviceId");
    AtKey(j, "DeviceName");
    AtKey(j, "EntryTimeEpoch");
    AtBlockKey(j, "Temperature", "Celsius");
    AtBlockKey(j, "Location", "Latitude");
    AtBlockKey(j, "Location", "Longitude");
  }

  /**
   * An accepted document's optional readings: None exactly when the block is absent
   * or null, otherwise the number found in the block.
   */
  lemma ValidateReadsReadings(j: Json, p: Payload)
    requires Validate(j) == Ok(p)
    ensures p.humidity.None? <==> Nullish(At(j, ["Humidity"]))
    ensures p.humidity.Some? ==> At(j, ["Humidity", "Percentage"]) == Some(JNum(p.humidity.value.percentage))
    ensures p.light.None? <==> Nullish(At(j, ["Light"]))
    ensures p.light.Some? ==> At(j, ["Light", "Lux"]) == Some(JNum(p.light.value.lux))
    ensures p.battery.None? <==> Nullish(At(j, ["Battery"]))
    ensures p.battery.Some? ==> At(j, ["Battery", "Percentage"]) == Some(JNum(p.battery.value.percentage as real))
    ensures p.cellular.None? <==> Nullish(At(j, ["Cellular"]))
    ensures p.cellular.Some? ==> At(j, ["Cellular", "Dbm"]) == Some(JNum(p.cellular.value.dbm))
  {
    var o := j.fields;
    var humidity := NumberBlockAt(Field(o, "Humidity"), ["Humidity"], "Percentage");
    var light := NumberBlockAt(Field(o, "Light"), ["Light"], "Lux");
    var battery := BatteryAt(Field(o, "Battery"), ["Battery"]);
    var cellular := NumberBlockAt(Field(o, "Cellular"), ["Cellular"], "Dbm");
    assert humidity.Ok? && light.Ok? && battery.Ok? && cellular.Ok?;
    assert p.humidity == if humidity.value.Some? then Some(Humidity(humidity.value.value)) else None;
    assert p.light == if light.value.Some? then Some(Light(light.value.value)) else None;
    assert p.battery == battery.value;
    assert p.cellular == if cellular.value.Some? then Some(Cellular(cellular.value.value)) else None;
    AtKey(j, "Humidity");
    AtKey(j, "Light");
    AtKey(j, "Battery");
    AtKey(j, "Cellular");
    AtBlockKey(j, "Humidity", "Percentage");
    AtBlockKey(j, "Light", "Lux");
    AtBlockKey(j, "Battery", "Percentage");
    AtBlockKey(j, "Cellular", "Dbm");
  }

  /**
   * An accepted document's optional location details: None exactly when absent or null
   * (for the accuracy, when the block or its Meters is absent or null).
   */
  lemma ValidateReadsLocation(j: Json, p: Payload)
    requires Validate(j) == Ok(p)
    ensures p.location.formattedAddress.None? <==> Nullish(At(j, ["Location", "FormattedAddress"]))
    ensures p.location.formattedAddress.Some? ==>
              At(j, ["Location", "FormattedAddress"]) == Some(JStr(p.location.formattedAddress.value))
    ensures p.location.locationMethod.None? <==> Nullish(At(j, ["Location", "LocationMethod"]))
    ensures p.location.locationMethod.Some? ==>
              At(j, ["Location", "LocationMethod"]) == Some(JStr(p.location.locationMethod.value))
    ensures p.location.accuracy.None? <==> Nullish(At(j, ["Location", "Accuracy"]))
    ensures (p.location.accuracy.None? || p.location.accuracy.value.meters.None?) <==>
              (Nullish(At(j, ["Location", "Accuracy"])) || Nullish(At(j, ["Location", "Accuracy", "Meters"])))
    ensures p.location.accuracy.Some? && p.location.accuracy.value.meters.Some? ==>
              At(j, ["Location", "Accuracy", "Meters"]) == Some(JNum(p.location.accuracy.value.meters.value))
    ensures p.location.wifiAccessPointUsedCount.None? <==> Nullish(At(j, ["Location", "WifiAccessPointUsedCount"]))
    ensures p.location.wifiAccessPointUsedCount.Some? ==>
              At(j, ["Location", "WifiAccessPointUsedCount"]) == Some(JNum(p.location.wifiAccessPointUsedCount.value as real))
  {
    var o := j.fields;
    assert LocationAt(Field(o, "Location"), ["Location"]) == Ok(p.location);
    LocationBlockReads(Field(o, "Location"), ["Location"], p.location);
    AtBlockKey(j, "Location", "FormattedAddress");
    AtBlockKey(j, "Location", "LocationMethod");
    AtBlockKey(j, "Location", "Accuracy");
    AtBlockKey(j, "Location", "WifiAccessPointUsedCount");
    AtThree(j, "Location", "Accuracy", "Meters");
    AtBlockKey(j.fields["Location"], "Accuracy", "Meters");
  }

  /** An accepted Location block's optional details, read field by field from the block itself. */
  lemma LocationBlockReads(v: Option<Json>, path: Path, l: Location)
    requires LocationAt(v, path) == Ok(l)
    ensures IsObject(v)
    ensures l.formattedAddress.None? <==> Nullish(Field(v.value.fields, "FormattedAddress"))
    ensures l.formattedAddress.Some? ==> Field(v.value.fields, "FormattedAddress") == Some(JStr(l.formattedAddress.value))
    ensures l.locationMethod.None? <==> Nullish(Field(v.value.fields, "LocationMethod"))
    ensures l.locationMethod.Some? ==> Field(v.value.fields, "LocationMethod") == Some(JStr(l.locationMethod.value))
    ensures l.accuracy.None? <==> Nullish(Field(v.value.fields, "Accuracy"))
    ensures l.accuracy.Some? ==> IsObject(Field(v.value.fields, "Accuracy"))
    ensures l.accuracy.Some? ==>
              (l.accuracy.value.meters.None? <==> Nullish(Field(Field(v.value.fields, "Accuracy").value.fields, "Meters")))
    ensures l.accuracy.Some? && l.accuracy.value.meters.Some? ==>
              Field(Field(v.value.fields, "Accuracy").value.fields, "Meters") == Some(JNum(l.accuracy.value.meters.value))
    ensures l.wifiAccessPointUsedCount.None? <==> Nullish(Field(v.value.fields, "WifiAccessPointUsedCount"))
    ensures l.wifiAccessPointUsedCount.Some? ==>
              Field(v.value.fields, "WifiAccessPointUsedCount") == Some(JNum(l.wifiAccessPointUsedCount.value as real))
  {
  }

  // ---- the document a payload is read from ----

  function EncodeLocation(l: Location): Json
  {
    JObj(map[
      "Latitude" := JNum(l.latitude),
      "Longitude" := JNum(l.longitude),
      "FormattedAddress" := if l.formattedAddress.Some? then JStr(l.formattedAddress.value) else JNull,
      "LocationMethod" := if l.locationMethod.Some? then JStr(l.locationMethod.value) else JNull,
      "Accuracy" :=
        if l.accuracy.None? then JNull
        else JObj(map["Meters" := if l.accuracy.value.meters.Some? then JNum(l.accuracy.value.meters.value) else JNull]),
      "WifiAccessPointUsedCount" :=
        if l.wifiAccessPointUsedCount.Some? then JNum(l.wifiAccessPointUsedCount.value as real) else JNull])
  }

  /** A document carrying exactly the payload's values, with `null` for each missing optional one. */
  function Encode(p: Payload): Json
  {
    JObj(map[
      "DeviceId" := JStr(p.deviceId),
      "DeviceName" := JStr(p.deviceName),
      "EntryTimeEpoch" := JNum(p.entryTimeEpoch as real),
      "Temperature" := JObj(map["Celsius" := JNum(p.temperature.celsius)]),
      "Location" := EncodeLocation(p.location),
      "Humidity" := if p.humidity.Some? then JObj(map["Percentage" := JNum(p.humidity.value.percentage)]) else JNull,
      "Light" := if p.light.Some? then JObj(map["Lux" := JNum(p.light.value.lux)]) else JNull,
      "Battery" := if p.battery.Some? then JObj(map["Percentage" := JNum(p.battery.value.percentage as real)]) else JNull,
      "Cellular" := if p.cellular.Some? then JObj(map["Dbm" := JNum(p.cellular.value.dbm)]) else JNull])
  }

  lemma {:induction false} LocationRoundTrip(l: Location, path: Path)
    ensures LocationAt(Some(EncodeLocation(l)), path) == Ok(l)
  {
    var o := EncodeLocation(l).fields;
    assert Field(o, "Latitude") == Some(JNum(l.latitude));
    assert Field(o, "Longitude") == Some(JNum(l.longitude));
    assert NullableStringAt(Field(o, "FormattedAddress"), path + ["FormattedAddress"]) == Ok(l.formattedAddress);
    assert NullableStringAt(Field(o, "LocationMethod"), path + ["LocationMethod"]) == Ok(l.locationMethod);
    assert AccuracyAt(Field(o, "Accuracy"), path + ["Accuracy"]) == Ok(l.accuracy);
    var w := l.wifiAccessPointUsedCount;
    if w.Some? {
      assert IsInteger(w.value as real);
    }
    assert NullableIntegerAt(Field(o, "WifiAccessPointUsedCount"), path + ["WifiAccessPointUsedCount"]) == Ok(w);
  }

  lemma EncodeIdentity(p: Payload)
    requires WellFormed(p)
    ensures NonEmptyStringAt(Field(Encode(p).fields, "DeviceId"), ["DeviceId"]) == Ok(p.deviceId)
    ensures NonEmptyStringAt(Field(Encode(p).fields, "DeviceName"), ["DeviceName"]) == Ok(p.deviceName)
    ensures EpochAt(Field(Encode(p).fields, "EntryTimeEpoch"), ["EntryTimeEpoch"]) == Ok(p.entryTimeEpoch)
  {
    assert IsInteger(p.entryTimeEpoch as real);
  }

  lemma EncodeMeasurements(p: Payload)
    ensures TemperatureAt(Field(Encode(p).fields, "Temperature"), ["Temperature"]) == Ok(p.temperature)
    ensures LocationAt(Field(Encode(p).fields, "Location"), ["Location"]) == Ok(p.location)
  {
    LocationRoundTrip(p.location, ["Location"]);
  }

  lemma EncodeReadings(p: Payload)
    requires WellFormed(p)
    ensures NumberBlockAt(Field(Encode(p).fields, "Humidity"), ["Humidity"], "Percentage")
            == Ok(if p.humidity.Some? then Some(p.humidity.value.percentage) else None)
    ensures NumberBlockAt(Field(Encode(p).fields, "Light"), ["Light"], "Lux")
            == Ok(if p.light.Some? then Some(p.light.value.lux) else None)
    ensures BatteryAt(Field(Encode(p).fields, "Battery"), ["Battery"]) == Ok(p.battery)
    ensures NumberBlockAt(Field(Encode(p).fields, "Cellular"), ["Cellular"], "Dbm")
            == Ok(if p.cellular.Some? then Some(p.cellular.value.dbm) else None)
  {
    if p.battery.Some? {
      assert IsInteger(p.battery.value.percentage as real);
    }
  }

  /** Every well-formed payload is accepted back from its own document, unchanged. */
  lemma {:induction false} ValidateEncode(p: Payload)
    requires WellFormed(p)
    ensures Validate(Encode(p)) == Ok(p)
  {
    EncodeIdentity(p);
    EncodeMeasurements(p);
    EncodeReadings(p);
  }

  /** Validation is idempotent: an accepted payload, re-encoded, is accepted as itself. */
  lemma ValidateStable(j: Json, p: Payload)
    requires Validate(j) == Ok(p)
    ensures Validate(Encode(p)) == Ok(p)
  {
    ValidateEncode(p);
  }
}
