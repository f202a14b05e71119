/**
 * The database the webhook writes to, reduced to what the handler uses: the append-only
 * `rawWebhookEvent` table and the two tables `pxSensorEvent` and `pxLocationEvent`, each
 * holding at most one row per identity triple (deviceimei, timestamp, provider).
 */
module Store {
  import opened Wrappers
  import opened TiveSchema
  import opened Tive

  /** A stored row: the id the table issued for it and the record it holds. */
  datatype Row<R> = Row(id: nat, record: R)

  /** A `rawWebhookEvent` row: who sent what, and the joined warnings or null. */
  datatype AuditRecord = AuditRecord(
    provider: string,
    deviceImei: string,
    deviceName: string,
    entryTimeEpoch: int,
    payload: Payload,
    warnings: Option<string>)

  /** One write the store received, in the order received. */
  datatype Write = AuditWrite | SensorWrite(key: Identity) | LocationWrite(key: Identity)

  /** Ids in a table are below the next id to issue and no two rows share one. */
  ghost predicate IdsFresh<R>(rows: map<Identity, Row<R>>, nextId: nat)
  {
    && (forall k :: k in rows ==> rows[k].id < nextId)
    && (forall k1, k2 :: k1 in rows && k2 in rows && k1 != k2 ==> rows[k1].id != rows[k2].id)
  }

  /** The id an upsert at `key` returns: the existing row's, or a newly issued one. */
  function UpsertId<R>(rows: map<Identity, Row<R>>, nextId: nat, key: Identity): nat
  {
    if key in rows then rows[key].id else nextId
  }

  /** The next id to issue after an upsert at `key`: advanced only when a row was created. */
  function NextIdAfter<R>(rows: map<Identity, Row<R>>, nextId: nat, key: Identity): nat
  {
    if key in rows then nextId else nextId + 1
  }

  /**
   * The table after an upsert whose `create` and `update` are the same record: the row
   * at `key` holds exactly that record, under its old id if it existed, and every other
   * row is as it was.
   */
  function Upserted<R>(rows: map<Identity, Row<R>>, nextId: nat, key: Identity, record: R): (rows': map<Identity, Row<R>>)
    ensures rows'.Keys == rows.Keys + {key}
    ensures rows'[key] == Row(UpsertId(rows, nextId, key), record)
    ensures forall k :: k in rows && k != key ==> rows'[k] == rows[k]
  {
    rows[key := Row(UpsertId(rows, nextId, key), record)]
  }

  /** An upsert keeps ids fresh and distinct. */
  lemma UpsertKeepsIdsFresh<R>(rows: map<Identity, Row<R>>, nextId: nat, key: Identity, record: R)
    requires IdsFresh(rows, nextId)
    ensures IdsFresh(Upserted(rows, nextId, key, record), NextIdAfter(rows, nextId, key))
  {
  }

  /** An upsert adds a row only when the key was new: one row per identity. */
  lemma UpsertRowCount<R>(rows: map<Identity, Row<R>>, nextId: nat, key: Identity, record: R)
    ensures |Upserted(rows, nextId, key, record)| == if key in rows then |rows| else |rows| + 1
  {
    var rows' := Upserted(rows, nextId, key, record);
    if key in rows {
      assert rows'.Keys == rows.Keys;
    } else {
      assert rows'.Keys == rows.Keys + {key};
      assert |rows.Keys + {key}| == |rows.Keys| + 1;
    }
  }

  /**
   * Two upserts at the same key amount to the second one alone, and both return the
   * same id: re-sending an event replaces its row rather than adding one.
   */
  lemma UpsertTwice<R>(rows: map<Identity, Row<R>>, nextId: nat, key: Identity, first: R, second: R)
    ensures var rows1 := Upserted(rows, nextId, key, first);
            var next1 := NextIdAfter(rows, nextId, key);
            && Upserted(rows1, next1, key, second) == Upserted(rows, nextId, key, second)
            && UpsertId(rows1, next1, key) == UpsertId(rows, nextId, key)
            && NextIdAfter(rows1, next1, key) == next1
  {
    var rows1 := Upserted(rows, nextId, key, first);
    var next1 := NextIdAfter(rows, nextId, key);
    assert Upserted(rows1, next1, key, second) == Upserted(rows, nextId, key, second);
  }

  /** The store the handler writes to. */
  class Store {
    var audit: seq<AuditRecord>
    var sensors: map<Identity, Row<SensorRecord>>
    var nextSensorId: nat
    var locations: map<Identity, Row<LocationRecord>>
    var nextLocationId: nat
    /** Every write received so far, for stating what a call wrote and in which order. */
    ghost var writes: seq<Write>

    ghost predicate Valid()
      reads this
    {
      IdsFresh(sensors, nextSensorId) && IdsFresh(locations, nextLocationId)
    }

    constructor ()
      ensures Valid()
      ensures audit == [] && sensors == map[] && locations == map[] && writes == []
    {
      audit := [];
      sensors := map[];
      nextSensorId := 0;
      locations := map[];
      nextLocationId := 0;
      writes := [];
    }

    /** `rawWebhookEvent.create`: appends one audit row and touches nothing else. */
    method AppendAudit(record: AuditRecord)
      requires Valid()
      modifies this
      ensures Valid()
      ensures audit == old(audit) + [record]
      ensures writes == old(writes) + [AuditWrite]
      ensures sensors == old(sensors) && nextSensorId == old(nextSensorId)
      ensures locations == old(locations) && nextLocationId == old(nextLocationId)
    {
      audit := audit + [record];
      writes := writes + [AuditWrite];
    }

    /** `pxSensorEvent.upsert` keyed by the record's identity, returning the row's id. */
    method UpsertSensor(record: SensorRecord) returns (id: nat)
      requires Valid()
      modifies this
      ensures Valid()
      ensures id == UpsertId(old(sensors), old(nextSensorId), record.Key())
      ensures sensors == Upserted(old(sensors), old(nextSensorId), record.Key(), record)
      ensures nextSensorId == NextIdAfter(old(sensors), old(nextSensorId), record.Key())
      ensures writes == old(writes) + [SensorWrite(record.Key())]
      ensures audit == old(audit)
      ensures locations == old(locations) && nextLocationId == old(nextLocationId)
    {
      var key := record.Key();
      UpsertKeepsIdsFresh(sensors, nextSensorId, key, record);
      id := UpsertId(sensors, nextSensorId, key);
      sensors, nextSensorId := Upserted(sensors, nextSensorId, key, record), NextIdAfter(sensors, nextSensorId, key);
      writes := writes + [SensorWrite(key)];
    }

    /** `pxLocationEvent.upsert` keyed by the record's identity, returning the row's id. */
    method UpsertLocation(record: LocationRecord) returns (id: nat)
      requires Valid()
      modifies this
      ensures Valid()
      ensures id == UpsertId(old(locations), old(nextLocationId), record.Key())
      ensures locations == Upserted(old(locations), old(nextLocationId), record.Key(), record)
      ensures nextLocationId == NextIdAfter(old(locations), old(nextLocationId), record.Key())
      ensures writes == old(writes) + [LocationWrite(record.Key())]
      ensures audit == old(audit)
      ensures sensors == old(sensors) && nextSensorId == old(nextSensorId)
    {
      var key := record.Key();
      UpsertKeepsIdsFresh(locations, nextLocationId, key, record);
      id := UpsertId(locations, nextLocationId, key);
      locations, nextLocationId := Upserted(locations, nextLocationId, key, record), NextIdAfter(locations, nextLocationId, key);
      writes := writes + [LocationWrite(key)];
    }
  }
}
