/**
 * `ProcessDTRoutedData.Run`: one invocation handles one Event Grid event.
 * It filters the event, normalises the sensor twin's decoded payload and
 * writes it back as the sensor's `environmental_info`, finds the booth the
 * sensor belongs to, averages the stored readings of the booth's sensors and
 * writes the average onto the booth.
 *
 * The answers of the Twin Store's queries are inputs of the invocation; the
 * writes go to a `TwinStore` object. `Plan` is the specification: the
 * outcome, the queries sent and the writes requested, as functions of the
 * inputs.
 */
module ProcessDTRoutedData {
  import opened Wrappers
  import opened JsonValues
  import opened Twins
  import opened Normalizer
  import opened Averaging
  import opened JsonPatch
  import opened Store
  import opened Traversal

  /** The model-id prefix of the sensor twins the function reacts to. */
  const SENSOR_MODEL_PREFIX := "dtmi:ttnlwstack"

  /** An Event Grid event: its subject (the twin id), the model id in its data, and the data as text. */
  datatype Event = Event(subject: string, modelId: string, data: string)

  /** The reads an invocation sends to the Twin Store. */
  datatype Query =
    | TwinById(id: string)              // SELECT * FROM digitaltwins WHERE $dtId = id
    | IncomingRelationships(id: string) // GetIncomingRelationshipsAsync(id)
    | SensorsOfBooth(boothId: string)   // the join of booth and sensors over `sensors`

  /** How an invocation ends. */
  datatype Outcome =
    | NoServiceUrl     // ADT_SERVICE_URL is not set
    | ClientFailed     // creating the credential or the client threw
    | NoEvent          // no event, or an event without data
    | NotSensor        // the model id does not name a sensor
    | OwnUpdate        // the event reports an environmental_info write
    | NoSensorTwin     // the query by id returned no twin
    | SensorOnly       // the sensor was updated; it belongs to no booth
    | Aggregated       // the sensor and its booth were updated
    | Faulted(error: Exception) // an exception escaped Run

  /**
   * Everything an invocation depends on: the configuration, whether the
   * client could be built, the event, and the answers of the Twin Store to
   * the query by id, the relationship enumeration, the booth query and the
   * join query.
   */
  datatype Invocation = Invocation(
    serviceUrl: Option<string>,
    clientCreated: bool,
    event: Option<Event>,
    sensorTwins: seq<Twin>,
    incoming: seq<IncomingRelationship>,
    boothTwins: seq<Twin>,
    sensorRows: seq<map<string, Twin>>)

  /** What an invocation does: how it ends, what it reads and what it writes, in order. */
  datatype Trace = Trace(outcome: Outcome, queries: seq<Query>, writes: seq<Write>)

  /** `word` occurs in `text` starting at position `i`. */
  predicate OccursAt(text: string, word: string, i: nat)
  {
    i + |word| <= |text| && text[i..i + |word|] == word
  }

  /** `string.Contains`: `word` occurs in `text` at some position. */
  function ContainsText(text: string, word: string): (r: bool)
    ensures r <==> exists i: nat :: OccursAt(text, word, i)
    decreases |text|
  {
    if OccursAt(text, word, 0) then true
    else if |text| <= |word| then
      assert forall i: nat :: OccursAt(text, word, i) ==> i == 0;
      false
    else
      var r := ContainsText(text[1..], word);
      assert forall i: nat :: OccursAt(text[1..], word, i) <==> OccursAt(text, word, i + 1) by {
        forall i: nat ensures OccursAt(text[1..], word, i) <==> OccursAt(text, word, i + 1) {
          if i + 1 + |word| <= |text| {
            assert text[1..][i..i + |word|] == text[i + 1..i + 1 + |word|];
          }
        }
      }
      assert forall i: nat :: OccursAt(text, word, i) ==> i == 0 || OccursAt(text[1..], word, i - 1);
      r
  }

  /** Text lacking one character of the word does not contain it. */
  lemma MissingCharacterRulesOut(text: string, word: string, k: nat)
    requires k < |word| && word[k] !in text
    ensures !ContainsText(text, word)
  {
    forall i: nat | i + |word| <= |text| ensures !OccursAt(text, word, i) {
      assert text[i..i + |word|][k] == text[i + k];
    }
  }

  /** The checks of lines 53-97 that every processed event passes. */
  predicate PassesFilter(inp: Invocation)
  {
    && inp.serviceUrl.Some?
    && inp.clientCreated
    && inp.event.Some?
    && SENSOR_MODEL_PREFIX <= inp.event.value.modelId
    && !ContainsText(inp.event.value.data, ENVIRONMENTAL_INFO)
  }

  /** The specification of `Run`. */
  function Plan(inp: Invocation): Trace
  {
    if inp.serviceUrl.None? then Trace(NoServiceUrl, [], [])
    else if !inp.clientCreated then Trace(ClientFailed, [], [])
    else if inp.event.None? then Trace(NoEvent, [], [])
    else if !(SENSOR_MODEL_PREFIX <= inp.event.value.modelId) then Trace(NotSensor, [], [])
    else if ContainsText(inp.event.value.data, ENVIRONMENTAL_INFO) then Trace(OwnUpdate, [], [])
    else
      var q1 := [TwinById(inp.event.value.subject)];
      if inp.sensorTwins == [] then Trace(NoSensorTwin, q1, [])
      else SensorPlan(inp, inp.sensorTwins[0], q1)
  }

  /**
   * What happens once the first twin of the query by id is in hand: the
   * queries so far stay first, and a payload that cannot be decoded or
   * normalised faults before any write.
   */
  function SensorPlan(inp: Invocation, sensor: Twin, q1: seq<Query>): (r: Trace)
    ensures |r.queries| >= |q1| && r.queries[..|q1|] == q1
    ensures (DecodedPayload(sensor).Err? || Normalize(DecodedPayload(sensor).value).Err?) ==>
      r.outcome.Faulted? && r.queries == q1 && r.writes == []
  {
    match DecodedPayload(sensor)
    case Err(e) => Trace(Faulted(e), q1, [])
    case Ok(payload) =>
      match Normalize(payload)
      case Err(e) => Trace(Faulted(e), q1, [])
      case Ok(reading) => ReadingPlan(inp, sensor, reading, q1)
  }

  /**
   * What happens once the sensor's reading is normalised: the sensor's
   * update comes first, and the booth's second exactly when the invocation
   * aggregates; each is a one-operation patch at /environmental_info.
   */
  function ReadingPlan(inp: Invocation, sensor: Twin, reading: EnvironmentalInfo, q1: seq<Query>): (r: Trace)
    ensures 1 <= |r.writes| <= 2
    ensures r.writes[0] == Write(sensor.id, BuildPatch(sensor.contents, reading))
    ensures |r.writes| == 2 <==> r.outcome == Aggregated
    ensures |r.writes| == 2 ==> inp.boothTwins != [] && r.writes[1].twinId == inp.boothTwins[|inp.boothTwins| - 1].id
    ensures forall k :: 0 <= k < |r.writes| ==> |r.writes[k].patch| == 1 && r.writes[k].patch[0].path == ENVIRONMENTAL_INFO_PATH
    ensures |r.queries| > |q1| && r.queries[..|q1|] == q1 && r.queries[|q1|] == IncomingRelationships(sensor.id)
  {
    var w1 := [Write(sensor.id, BuildPatch(sensor.contents, reading))];
    var q2 := q1 + [IncomingRelationships(sensor.id)];
    match LastSensorsSource(inp.incoming)
    case None => Trace(SensorOnly, q2, w1)
    case Some(boothId) =>
      Trace(AggregationOutcome(inp), q2 + [TwinById(boothId), SensorsOfBooth(boothId)], w1 + AggregationWrites(inp))
  }

  /**
   * The booth's writes once its id is known: none on a fault, else one
   * update of the last booth twin with the average of the sibling list.
   */
  function AggregationWrites(inp: Invocation): (r: seq<Write>)
    ensures |r| <= 1
    ensures |r| == 1 <==> SiblingInfos(inp.sensorRows).Ok? && inp.boothTwins != []
    ensures |r| == 1 ==> var booth := inp.boothTwins[|inp.boothTwins| - 1];
      r[0] == Write(booth.id, BuildPatch(booth.contents, Aggregate(SiblingInfos(inp.sensorRows).value)))
  {
    match SiblingInfos(inp.sensorRows)
    case Err(_) => []
    case Ok(infos) =>
      if inp.boothTwins == [] then []
      else
        var booth := inp.boothTwins[|inp.boothTwins| - 1];
        [Write(booth.id, BuildPatch(booth.contents, Aggregate(infos)))]
  }

  /**
   * The outcome once the booth's id is known: aggregated when the sibling
   * list is built and a booth twin was returned; otherwise the exception
   * that escapes, a null booth's being a NullReference.
   */
  function AggregationOutcome(inp: Invocation): (r: Outcome)
    ensures r == Aggregated <==> SiblingInfos(inp.sensorRows).Ok? && inp.boothTwins != []
    ensures r != Aggregated ==> r.Faulted?
    ensures SiblingInfos(inp.sensorRows).Err? ==> r == Faulted(SiblingInfos(inp.sensorRows).error)
  {
    match SiblingInfos(inp.sensorRows)
    case Err(e) => Faulted(e)
    case Ok(_) => if inp.boothTwins == [] then Faulted(NullReference) else Aggregated
  }

  /**
   * `updateEnvironmentalInfo`: builds the one-operation patch for the twin and
   * sends it; a refused update is logged by the source and otherwise ignored.
   */
  method UpdateEnvironmentalInfo(store: TwinStore, twin: Twin, e: EnvironmentalInfo)
    modifies store
    ensures store.log == old(store.log) + [Write(twin.id, BuildPatch(twin.contents, e))]
    ensures store.twins == ApplyWrite(old(store.twins), old(store.rejected), Write(twin.id, BuildPatch(twin.contents, e)))
    ensures store.rejected == old(store.rejected)
  {
    var updateTwinData := new JsonPatchDocument();
    if ENVIRONMENTAL_INFO in twin.contents {
      updateTwinData.AppendReplace(ENVIRONMENTAL_INFO_PATH, Serialize(e));
    } else {
      updateTwinData.AppendAdd(ENVIRONMENTAL_INFO_PATH, Serialize(e));
    }
    assert updateTwinData.ops == BuildPatch(twin.contents, e);
    var _ := store.UpdateDigitalTwin(twin.id, updateTwinData.ops);
  }

  /** One invocation of the function. */
  method Run(inp: Invocation, store: TwinStore) returns (outcome: Outcome, queries: seq<Query>)
    modifies store
    ensures outcome == Plan(inp).outcome && queries == Plan(inp).queries
    ensures store.log == old(store.log) + Plan(inp).writes
    ensures store.twins == ApplyWrites(old(store.twins), old(store.rejected), Plan(inp).writes)
    ensures store.rejected == old(store.rejected)
  {
    queries := [];
    if inp.serviceUrl.None? {
      return NoServiceUrl, queries;
    }
    if !inp.clientCreated {
      return ClientFailed, queries;
    }
    if inp.event.None? {
      return NoEvent, queries;
    }
    var event := inp.event.value;
    if !(SENSOR_MODEL_PREFIX <= event.modelId) {
      return NotSensor, queries;
    }
    if ContainsText(event.data, ENVIRONMENTAL_INFO) {
      return OwnUpdate, queries;
    }
    queries := [TwinById(event.subject)];
    // The `await foreach` over the query by id returns at the end of its
    // first iteration: only the first twin is handled.
    if |inp.sensorTwins| > 0 {
      outcome, queries := ConsolidateSensor(inp, inp.sensorTwins[0], queries, store);
      return;
    }
    outcome := NoSensorTwin;
  }

  /** Lines 113-115: the fields of the reading are set one metric at a time. */
  method NormalizeReading(decodedPayload: map<string, Json>) returns (r: Result<EnvironmentalInfo, Exception>)
    ensures r == Normalize(decodedPayload)
  {
    var environmentalInfo := EnvironmentalInfo(None, None, None);
    var temperature := ReadMetric(decodedPayload, Temperature);
    if temperature.Err? {
      return Err(temperature.error);
    }
    environmentalInfo := environmentalInfo.(temperature := Some(temperature.value));
    var humidity := ReadMetric(decodedPayload, Humidity);
    if humidity.Err? {
      return Err(humidity.error);
    }
    environmentalInfo := environmentalInfo.(humidity := Some(humidity.value));
    var co2 := ReadMetric(decodedPayload, Co2);
    if co2.Err? {
      return Err(co2.error);
    }
    environmentalInfo := environmentalInfo.(co2 := Some(co2.value));
    r := Ok(environmentalInfo);
  }

  /** Lines 111-197 for the sensor twin `sensorTwin`, after the queries `q1`. */
  method ConsolidateSensor(inp: Invocation, sensorTwin: Twin, q1: seq<Query>, store: TwinStore)
    returns (outcome: Outcome, queries: seq<Query>)
    modifies store
    ensures outcome == SensorPlan(inp, sensorTwin, q1).outcome && queries == SensorPlan(inp, sensorTwin, q1).queries
    ensures store.log == old(store.log) + SensorPlan(inp, sensorTwin, q1).writes
    ensures store.twins == ApplyWrites(old(store.twins), old(store.rejected), SensorPlan(inp, sensorTwin, q1).writes)
    ensures store.rejected == old(store.rejected)
  {
    queries := q1;
    var decoded := DecodedPayload(sensorTwin);
    if decoded.Err? {
      return Faulted(decoded.error), queries;
    }
    var normalized := NormalizeReading(decoded.value);
    if normalized.Err? {
      return Faulted(normalized.error), queries;
    }
    outcome, queries := ConsolidateReading(inp, sensorTwin, normalized.value, q1, store);
  }

  /** Lines 117-190: the sensor's update with its reading `environmentalInfo`, then its booth's. */
  method ConsolidateReading(inp: Invocation, sensorTwin: Twin, environmentalInfo: EnvironmentalInfo, q1: seq<Query>, store: TwinStore)
    returns (outcome: Outcome, queries: seq<Query>)
    modifies store
    ensures outcome == ReadingPlan(inp, sensorTwin, environmentalInfo, q1).outcome
    ensures queries == ReadingPlan(inp, sensorTwin, environmentalInfo, q1).queries
    ensures store.log == old(store.log) + ReadingPlan(inp, sensorTwin, environmentalInfo, q1).writes
    ensures store.twins == ApplyWrites(old(store.twins), old(store.rejected), ReadingPlan(inp, sensorTwin, environmentalInfo, q1).writes)
    ensures store.rejected == old(store.rejected)
  {
    ghost var twins0 := store.twins;
    ghost var w1 := Write(sensorTwin.id, BuildPatch(sensorTwin.contents, environmentalInfo));
    UpdateEnvironmentalInfo(store, sensorTwin, environmentalInfo);
    assert store.twins == ApplyWrites(twins0, store.rejected, [w1]);

    queries := q1 + [IncomingRelationships(sensorTwin.id)];
    var exhibitionBoothId := FindBoothId(inp.incoming);
    if exhibitionBoothId.None? {
      return SensorOnly, queries;
    }
    outcome, queries := UpdateBooth(inp, exhibitionBoothId.value, queries, store);
    ApplyWritesAppend(twins0, store.rejected, [w1], AggregationWrites(inp));
  }

  lemma {:induction false} ApplyWritesAppend(twins: map<string, map<string, Json>>, rejected: set<string>, xs: seq<Write>, ys: seq<Write>)
    ensures ApplyWrites(twins, rejected, xs + ys) == ApplyWrites(ApplyWrites(twins, rejected, xs), rejected, ys)
    decreases |xs|
  {
    if xs == [] {
      assert xs + ys == ys;
    } else {
      assert (xs + ys)[1..] == xs[1..] + ys;
      ApplyWritesAppend(ApplyWrite(twins, rejected, xs[0]), rejected, xs[1..], ys);
    }
  }

  /** Lines 137-188: the booth query, the join query, the averages and the booth's update. */
  method UpdateBooth(inp: Invocation, exhibitionBoothId: string, q2: seq<Query>, store: TwinStore)
    returns (outcome: Outcome, queries: seq<Query>)
    modifies store
    ensures outcome == AggregationOutcome(inp)
    ensures queries == q2 + [TwinById(exhibitionBoothId), SensorsOfBooth(exhibitionBoothId)]
    ensures store.log == old(store.log) + AggregationWrites(inp)
    ensures store.twins == ApplyWrites(old(store.twins), old(store.rejected), AggregationWrites(inp))
    ensures store.rejected == old(store.rejected)
  {
    queries := q2 + [TwinById(exhibitionBoothId)];
    var exhibitionBooth := FindBooth(inp.boothTwins);
    queries := queries + [SensorsOfBooth(exhibitionBoothId)];
    var sensorList := GatherSensorInfo(inp.sensorRows);
    if sensorList.Err? {
      return Faulted(sensorList.error), queries;
    }
    var avgTemperature := Average(sensorList.value, Temperature);
    var avgHumidity := Average(sensorList.value, Humidity);
    var avgCO2 := Average(sensorList.value, Co2);
    var environmentalInfo := EnvironmentalInfo(avgTemperature, avgHumidity, avgCO2);
    if exhibitionBooth.None? {
      // `twin.Contents` on the null booth, at the start of updateEnvironmentalInfo
      return Faulted(NullReference), queries;
    }
    ghost var w2 := Write(exhibitionBooth.value.id, BuildPatch(exhibitionBooth.value.contents, environmentalInfo));
    UpdateEnvironmentalInfo(store, exhibitionBooth.value, environmentalInfo);
    assert AggregationWrites(inp) == [w2];
    assert [w2][1..] == [];
    outcome := Aggregated;
  }
}
