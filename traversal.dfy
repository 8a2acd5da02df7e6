/**
 * Graph traversal: the booth a sensor belongs to (the source of its last
 * incoming `sensors` relationship), the booth twin, and the stored readings
 * of the booth's sensors taken from the rows of the join query.
 */
module Traversal {
  import opened Wrappers
  import opened JsonValues
  import opened Twins
  import opened JsonPatch

  const SENSORS_RELATIONSHIP := "sensors"

  /** The name under which a join row holds the sensor twin. */
  const SENSOR_ALIAS := "Sensor"

  /** The relationship at `i` is named `sensors` and none after it is. */
  ghost predicate LastSensorsAt(rels: seq<IncomingRelationship>, i: int)
  {
    0 <= i < |rels| && rels[i].name == SENSORS_RELATIONSHIP &&
    forall j :: i < j < |rels| ==> rels[j].name != SENSORS_RELATIONSHIP
  }

  /** The source of the last incoming relationship named exactly `sensors`, if any. */
  function LastSensorsSource(rels: seq<IncomingRelationship>): (r: Option<string>)
    ensures r.None? <==> forall i :: 0 <= i < |rels| ==> rels[i].name != SENSORS_RELATIONSHIP
    ensures r.Some? ==> exists i :: LastSensorsAt(rels, i) && rels[i].sourceId == r.value
    decreases |rels|
  {
    if rels == [] then None
    else
      var last := |rels| - 1;
      if rels[last].name == SENSORS_RELATIONSHIP then
        assert LastSensorsAt(rels, last);
        Some(rels[last].sourceId)
      else
        var front := rels[..last];
        var r := LastSensorsSource(front);
        assert rels == front + [rels[last]];
        if r.Some? then
          LastSensorsSkip(front, rels[last], r.value);
          r
        else
          r
  }

  lemma LastSensorsSkip(rels: seq<IncomingRelationship>, x: IncomingRelationship, v: string)
    requires x.name != SENSORS_RELATIONSHIP
    requires exists i :: LastSensorsAt(rels, i) && rels[i].sourceId == v
    ensures exists i :: LastSensorsAt(rels + [x], i) && (rels + [x])[i].sourceId == v
  {
    var i :| LastSensorsAt(rels, i) && rels[i].sourceId == v;
    assert LastSensorsAt(rels + [x], i);
  }

  /** The loop of lines 128-132, which overwrites the booth id at every match. */
  method FindBoothId(rels: seq<IncomingRelationship>) returns (boothId: Option<string>)
    ensures boothId == LastSensorsSource(rels)
  {
    boothId := None;
    var i := 0;
    while i < |rels|
      invariant 0 <= i <= |rels|
      invariant boothId == LastSensorsSource(rels[..i])
    {
      assert rels[..i + 1][..i] == rels[..i];
      if rels[i].name == SENSORS_RELATIONSHIP {
        boothId := Some(rels[i].sourceId);
      }
      i := i + 1;
    }
    assert rels[..|rels|] == rels;
  }

  /** The loop of lines 141-144: the booth is the last twin the query returns, null for none. */
  method FindBooth(twins: seq<Twin>) returns (booth: Option<Twin>)
    ensures booth.None? <==> twins == []
    ensures booth.Some? ==> booth.value == twins[|twins| - 1]
  {
    booth := None;
    var i := 0;
    while i < |twins|
      invariant 0 <= i <= |twins|
      invariant booth.None? <==> i == 0
      invariant booth.Some? ==> booth.value == twins[i - 1]
    {
      booth := Some(twins[i]);
      i := i + 1;
    }
  }

  /** A join row that holds a sensor twin which already carries a reading. */
  predicate HasStoredInfo(row: map<string, Twin>)
  {
    SENSOR_ALIAS in row && ENVIRONMENTAL_INFO in row[SENSOR_ALIAS].contents
  }

  /**
   * `idx` lists the positions of the rows whose sensor holds a stored
   * reading: strictly increasing, each such a row, and every such row among
   * them.
   */
  ghost predicate StoredPositions(rows: seq<map<string, Twin>>, idx: seq<nat>)
  {
    && (forall j :: 0 <= j < |idx| ==> idx[j] < |rows| && HasStoredInfo(rows[idx[j]]))
    && (forall j, l :: 0 <= j < l < |idx| ==> idx[j] < idx[l])
    && (forall k :: 0 <= k < |rows| && HasStoredInfo(rows[k]) ==> k in idx)
  }

  /** `ts` are the sensor twins of the rows at positions `idx`, in that order. */
  ghost predicate SensorsAt(rows: seq<map<string, Twin>>, idx: seq<nat>, ts: seq<Twin>)
  {
    |ts| == |idx| &&
    forall j :: 0 <= j < |ts| ==> idx[j] < |rows| && SENSOR_ALIAS in rows[idx[j]] && ts[j] == rows[idx[j]][SENSOR_ALIAS]
  }

  /** The positions of the rows whose sensor holds a stored reading. */
  function StoredRowIndices(rows: seq<map<string, Twin>>): (r: seq<nat>)
    ensures StoredPositions(rows, r)
    decreases |rows|
  {
    if rows == [] then []
    else
      var last := |rows| - 1;
      var front := StoredRowIndices(rows[..last]);
      StoredPositionsSnoc(rows, front);
      if HasStoredInfo(rows[last]) then front + [last] else front
  }

  lemma StoredPositionsSnoc(rows: seq<map<string, Twin>>, idx: seq<nat>)
    requires rows != [] && StoredPositions(rows[..|rows| - 1], idx)
    ensures HasStoredInfo(rows[|rows| - 1]) ==> StoredPositions(rows, idx + [|rows| - 1])
    ensures !HasStoredInfo(rows[|rows| - 1]) ==> StoredPositions(rows, idx)
  {
    var last := |rows| - 1;
    assert forall k :: 0 <= k < last ==> rows[..last][k] == rows[k];
    assert forall j :: 0 <= j < |idx| ==> idx[j] < last;
  }

  /**
   * The sensor twins of the rows that hold a stored reading (lines 151-157):
   * one per such row, in query order.
   */
  function SensorsWithInfo(rows: seq<map<string, Twin>>): (r: seq<Twin>)
    ensures SensorsAt(rows, StoredRowIndices(rows), r)
    ensures forall k :: 0 <= k < |r| ==> ENVIRONMENTAL_INFO in r[k].contents
    decreases |rows|
  {
    if rows == [] then []
    else
      var last := |rows| - 1;
      var front := SensorsWithInfo(rows[..last]);
      SensorsAtSnoc(rows, StoredRowIndices(rows[..last]), front);
      var row := rows[last];
      if HasStoredInfo(row) then front + [row[SENSOR_ALIAS]] else front
  }

  lemma SensorsAtSnoc(rows: seq<map<string, Twin>>, idx: seq<nat>, ts: seq<Twin>)
    requires rows != [] && SensorsAt(rows[..|rows| - 1], idx, ts)
    ensures SensorsAt(rows, idx, ts)
    ensures HasStoredInfo(rows[|rows| - 1]) ==> SensorsAt(rows, idx + [|rows| - 1], ts + [rows[|rows| - 1][SENSOR_ALIAS]])
  {
    var last := |rows| - 1;
    assert forall j :: 0 <= j < |idx| ==> rows[..last][idx[j]] == rows[idx[j]];
  }

  /**
   * `ss[name] == null ? null : Convert.ToDouble(ss[name])`: a missing key is
   * absent, not 0; a member holding JSON null is a token, not C# null, so it
   * reaches the conversion and throws.
   */
  function StoredMetric(info: map<string, Json>, m: Metric): (r: Result<Option<real>, Exception>)
    ensures r == Ok(None) <==> MetricName(m) !in info
    ensures MetricName(m) in info && info[MetricName(m)].JNumber? ==> r == Ok(Some(info[MetricName(m)].n))
    ensures MetricName(m) in info && info[MetricName(m)] == JNull ==> r == Err(Argument)
    ensures r.Err? ==> MetricName(m) in info && !info[MetricName(m)].JNumber? && !info[MetricName(m)].JBool?
  {
    if MetricName(m) !in info then Ok(None)
    else
      match ToDouble(Some(info[MetricName(m)]))
      case Ok(v) => Ok(Some(v))
      case Err(e) => Err(e)
  }

  /** The reading stored on a sensor twin (lines 158-165), metric by metric. */
  function StoredInfo(twin: Twin): (r: Result<EnvironmentalInfo, Exception>)
    requires ENVIRONMENTAL_INFO in twin.contents
    ensures r.Ok? <==>
      AsObject(twin.contents[ENVIRONMENTAL_INFO]).Ok? &&
      forall m :: StoredMetric(AsObject(twin.contents[ENVIRONMENTAL_INFO]).value, m).Ok?
    ensures r.Ok? ==> forall m :: Ok(r.value.Get(m)) == StoredMetric(AsObject(twin.contents[ENVIRONMENTAL_INFO]).value, m)
  {
    match AsObject(twin.contents[ENVIRONMENTAL_INFO])
    case Err(e) => Err(e)
    case Ok(ss) =>
      var t := StoredMetric(ss, Temperature);
      var h := StoredMetric(ss, Humidity);
      var c := StoredMetric(ss, Co2);
      if t.Err? then Err(t.error)
      else if h.Err? then Err(h.error)
      else if c.Err? then Err(c.error)
      else Ok(EnvironmentalInfo(t.value, h.value, c.value))
  }

  /** Every twin of `ts` holds a stored reading that converts. */
  ghost predicate AllStored(ts: seq<Twin>)
  {
    forall k :: 0 <= k < |ts| ==> ENVIRONMENTAL_INFO in ts[k].contents && StoredInfo(ts[k]).Ok?
  }

  /** `infos` are the converted stored readings of `ts`, one per twin, in order. */
  ghost predicate StoredReadings(ts: seq<Twin>, infos: seq<EnvironmentalInfo>)
  {
    |infos| == |ts| &&
    forall k :: 0 <= k < |ts| ==> ENVIRONMENTAL_INFO in ts[k].contents && StoredInfo(ts[k]) == Ok(infos[k])
  }

  /**
   * The sibling list of lines 148-174: one reading per row whose sensor holds
   * a stored reading, in query order; a row without one is skipped, and the
   * first reading that cannot be converted ends the invocation.
   */
  function SiblingInfos(rows: seq<map<string, Twin>>): (r: Result<seq<EnvironmentalInfo>, Exception>)
    ensures r.Ok? <==> AllStored(SensorsWithInfo(rows))
    ensures r.Ok? ==> StoredReadings(SensorsWithInfo(rows), r.value)
    decreases |rows|
  {
    if rows == [] then Ok([])
    else
      var row := rows[|rows| - 1];
      var frontSensors := SensorsWithInfo(rows[..|rows| - 1]);
      match SiblingInfos(rows[..|rows| - 1])
      case Err(e) =>
        if HasStoredInfo(row) then
          AllStoredSnoc(frontSensors, row[SENSOR_ALIAS]);
          Err(e)
        else Err(e)
      case Ok(infos) =>
        if HasStoredInfo(row) then
          var sensor := row[SENSOR_ALIAS];
          AllStoredSnoc(frontSensors, sensor);
          match StoredInfo(sensor)
          case Err(e) => Err(e)
          case Ok(info) =>
            StoredReadingsSnoc(frontSensors, infos, sensor, info);
            Ok(infos + [info])
        else Ok(infos)
  }

  lemma AllStoredSnoc(ts: seq<Twin>, t: Twin)
    requires ENVIRONMENTAL_INFO in t.contents
    ensures AllStored(ts + [t]) <==> AllStored(ts) && StoredInfo(t).Ok?
  {
    if AllStored(ts + [t]) {
      assert (ts + [t])[|ts|] == t;
      forall k | 0 <= k < |ts| ensures ENVIRONMENTAL_INFO in ts[k].contents && StoredInfo(ts[k]).Ok? {
        assert (ts + [t])[k] == ts[k];
      }
    }
  }

  lemma StoredReadingsSnoc(ts: seq<Twin>, infos: seq<EnvironmentalInfo>, t: Twin, info: EnvironmentalInfo)
    requires StoredReadings(ts, infos)
    requires ENVIRONMENTAL_INFO in t.contents && StoredInfo(t) == Ok(info)
    ensures StoredReadings(ts + [t], infos + [info])
  {
    forall k | 0 <= k < |ts| + 1
      ensures ENVIRONMENTAL_INFO in (ts + [t])[k].contents && StoredInfo((ts + [t])[k]) == Ok((infos + [info])[k])
    {
      if k < |ts| {
        assert (ts + [t])[k] == ts[k] && (infos + [info])[k] == infos[k];
      }
    }
  }

  lemma {:induction false} SiblingErrorPersists(rows: seq<map<string, Twin>>, i: nat)
    requires i <= |rows| && SiblingInfos(rows[..i]).Err?
    ensures SiblingInfos(rows) == SiblingInfos(rows[..i])
    decreases |rows| - i
  {
    if i < |rows| {
      assert rows[..i + 1][..i] == rows[..i];
      SiblingErrorPersists(rows, i + 1);
    } else {
      assert rows[..i] == rows;
    }
  }

  /** The loop of lines 151-174 building `sensorList`. */
  method GatherSensorInfo(rows: seq<map<string, Twin>>) returns (r: Result<seq<EnvironmentalInfo>, Exception>)
    ensures r == SiblingInfos(rows)
  {
    var sensorList: seq<EnvironmentalInfo> := [];
    var i := 0;
    while i < |rows|
      invariant 0 <= i <= |rows|
      invariant SiblingInfos(rows[..i]) == Ok(sensorList)
    {
      var d := rows[i];
      assert rows[..i + 1][..i] == rows[..i];
      if SENSOR_ALIAS in d && ENVIRONMENTAL_INFO in d[SENSOR_ALIAS].contents {
        var info := StoredInfo(d[SENSOR_ALIAS]);
        if info.Err? {
          SiblingErrorPersists(rows, i + 1);
          return Err(info.error);
        }
        sensorList := sensorList + [info.value];
      }
      i := i + 1;
    }
    assert rows[..|rows|] == rows;
    r := Ok(sensorList);
  }

  /** A metric missing from a stored reading is absent in the sibling's entry. */
  lemma MissingStoredMetricIsAbsent(twin: Twin, m: Metric)
    requires ENVIRONMENTAL_INFO in twin.contents && StoredInfo(twin).Ok?
    requires MetricName(m) !in AsObject(twin.contents[ENVIRONMENTAL_INFO]).value
    ensures StoredInfo(twin).value.Get(m) == None
  {
  }

  /**
   * What a write stores is what sibling gathering reads back: a reading
   * serialised onto a twin by the patch is recovered exactly, absent
   * metrics included.
   */
  lemma StoredReadingRoundTrip(twin: Twin, e: EnvironmentalInfo)
    requires ENVIRONMENTAL_INFO in twin.contents && twin.contents[ENVIRONMENTAL_INFO] == Serialize(e)
    ensures StoredInfo(twin) == Ok(e)
  {
    var ss := Serialize(e).members;
    forall m ensures StoredMetric(ss, m) == Ok(e.Get(m)) {
    }
  }
}
