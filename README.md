# ProcessDTRoutedData in Dafny

This project models the Azure Function `ProcessDTRoutedData`. The function
reacts to a twin-update event from a LoRaWAN sensor's digital twin. It
normalises the sensor's decoded payload into a canonical `environmental_info`
reading (temperature, humidity, co2) and writes that reading back to the
sensor twin. It then finds the exhibition booth the sensor belongs to, averages
the stored readings of all the booth's sensors, and writes the average to the
booth twin. Both writes are JSON Patch documents at `/environmental_info`
(RFC 6902 "add", section 4.1, or "replace", section 4.3).

The model has these modules:

- `JsonValues` covers JSON tokens as Newtonsoft presents them, the exceptions
  the code can raise, `Convert.ToDouble` and the `(JObject)` cast.
- `Twins` covers twins, incoming relationships and the `EnvironmentalInfo`
  value object.
- `Normalizer` covers the alias chains of `??` and the sensor's reading.
- `Averaging` covers the null-skipping LINQ `Average` over `double?`.
- `JsonPatch` covers serialisation with null values ignored, the add/replace
  patch, what a store does with that patch (RFC 6902 sections 4.1, 4.3 and 5,
  a patch being atomic), and the mutable `JsonPatchDocument`.
- `Store` covers the Twin Store as a class. It keeps the twins' contents, the
  set of twins whose updates fail, and the log of update requests.
- `Traversal` covers the last `sensors` relationship, the booth query loop,
  and the sibling list built from the join rows.
- `ProcessDTRoutedData` holds the `Run` method and `updateEnvironmentalInfo`.
  These are imperative methods over a `TwinStore`. Each one is proved equal to
  the pure specification `Plan`, or to its parts `SensorPlan` and
  `ReadingPlan`. `Plan` gives the outcome, the queries issued in order, and
  the writes in order.
- `PipelineProperties` holds the properties of whole invocations, stated over
  `Plan` and the store's state.
- `Scenarios` holds concrete invocations with their outcomes.

The environment becomes parameters held in an `Invocation` value:

- the `ADT_SERVICE_URL` setting (optional);
- whether client construction succeeded;
- the event (optional), with its subject, the model id taken from its data, and its data text;
- the results of the three queries and of the relationship enumeration, each in the order the service returns them.

`Run` returns the outcome and the queries it issued. Its writes go to the
store: they are appended to the store's log and applied to its twins.

The model follows the code rather than the intended behaviour in these places:

- A metric none of whose aliases is in the payload becomes `Convert.ToDouble(null)`, which is 0.0. It does not become absent, so the sensor's own reading always has all three metrics.
- A key holding JSON `null` counts as present for `??`. Converting it throws, so that case is an exception and not a fall-through to the next alias.
- A payload or stored value that is a string, a JSON `null`, an array or an object faults the invocation; it is not skipped. A boolean converts to 1.0 or 0.0, and a payload metric none of whose aliases is present converts to 0.0.
- A refused write is logged and swallowed. The invocation goes on to the booth after a refused sensor write.
- Only the first twin the id query returns is processed, because `Run` returns inside the first iteration of that loop. The model gives that loop as a test for a first element.
- When the booth query returns nothing, `updateEnvironmentalInfo` dereferences a null twin. The model ends the invocation with `Faulted(NullReference)` after the sensor write.

## Model

| member | source | states |
|---|---|---|
| JsonValues.ToDouble | azure-functions/twin-updates/ProcessDTRoutedData.cs:113-115 | `Convert.ToDouble` succeeds exactly on C# null, a number or a boolean: null gives 0.0, a number itself, a boolean 1.0 or 0.0; a JSON null throws an argument error and a string a format error |
| JsonValues.AsObject | azure-functions/twin-updates/ProcessDTRoutedData.cs:111 | the `(JObject)` cast succeeds exactly on a JSON object, giving its members back; a null value throws a null reference |
| Normalizer.FirstPresent | azure-functions/twin-updates/ProcessDTRoutedData.cs:113-115 | the `??` chain yields no token exactly when no alias is a key of the payload; otherwise it yields the token of the first alias that is a key, every earlier alias being missing |
| Normalizer.ReadMetric | azure-functions/twin-updates/ProcessDTRoutedData.cs:113-115 | a metric with no alias present reads as 0.0, and a conversion fails only because some present alias holds neither a number nor a boolean |
| Normalizer.Normalize | azure-functions/twin-updates/ProcessDTRoutedData.cs:113-115 | the reading succeeds exactly when all three conversions succeed, and then each metric is set to its converted value; a failing temperature conversion is the error reported, then a failing humidity one |
| Normalizer.DecodedPayload | azure-functions/twin-updates/ProcessDTRoutedData.cs:111 | a twin without `decodedPayload` throws KeyNotFound; a successful decode is exactly the JSON object stored there |
| Normalizer.NormalizedReadingIsComplete | azure-functions/twin-updates/ProcessDTRoutedData.cs:113-115 | a successfully normalised sensor reading has all three metrics present |
| Normalizer.FirstAliasWins | azure-functions/twin-updates/ProcessDTRoutedData.cs:113-114 | when alias i is the first alias present and holds a number, that number is the metric, whatever later aliases hold |
| Normalizer.MissingMetricIsZero | azure-functions/twin-updates/ProcessDTRoutedData.cs:113-115 | a metric with no alias present reads as 0.0 |
| Normalizer.Co2ReadsOnlyCo2 | azure-functions/twin-updates/ProcessDTRoutedData.cs:115 | co2 is the conversion of the `co2` member alone |
| Averaging.Average | azure-functions/twin-updates/ProcessDTRoutedData.cs:177-179 | the mean is absent exactly when no entry has the metric, in particular for an empty list |
| Averaging.Aggregate | azure-functions/twin-updates/ProcessDTRoutedData.cs:181-186 | each metric of the booth's aggregate is the null-skipping mean of that metric over the sibling list |
| Averaging.AverageOfPermutation | azure-functions/twin-updates/ProcessDTRoutedData.cs:177-179 | two lists with the same entries in any order have the same mean |
| Averaging.AggregateOfPermutation | azure-functions/twin-updates/ProcessDTRoutedData.cs:177-186 | the booth's aggregate does not depend on the order of the sibling list |
| Averaging.AverageSkipsAbsent | azure-functions/twin-updates/ProcessDTRoutedData.cs:177-179 | an entry without the metric changes neither the sum nor the count: the mean is as without it |
| Averaging.AverageWithinBounds | azure-functions/twin-updates/ProcessDTRoutedData.cs:177-179 | a present mean lies between any lower and upper bound of the present values |
| JsonPatch.Serialize | azure-functions/twin-updates/ProcessDTRoutedData.cs:210-222 | the serialised reading is an object with a number member for exactly the present metrics, under their property names, and no other member |
| JsonPatch.BuildPatch | azure-functions/twin-updates/ProcessDTRoutedData.cs:208-223 | one operation at `/environmental_info` carrying the serialised reading; it is "replace" exactly when the twin read had `environmental_info`; on that twin it sets `environmental_info` and nothing else |
| JsonPatch.PatchIsIdempotent | azure-functions/twin-updates/ProcessDTRoutedData.cs:216-223 | applying the built patch a second time leaves the twin as the first application did |
| JsonPatch.StaleReplaceFails | azure-functions/twin-updates/ProcessDTRoutedData.cs:216-219 | a "replace" chosen from a twin read with the reading fails on a stored twin that no longer has it |
| JsonPatch.PatchEffect | azure-functions/twin-updates/ProcessDTRoutedData.cs:216-228 | when the patch is "add" or the stored twin has the reading, the patch sets only `environmental_info` on the stored twin |
| JsonPatch.JsonPatchDocument.constructor | azure-functions/twin-updates/ProcessDTRoutedData.cs:208 | a new patch document has no operations |
| JsonPatch.JsonPatchDocument.AppendAdd | azure-functions/twin-updates/ProcessDTRoutedData.cs:222 | appends one "add" operation and changes nothing else |
| JsonPatch.JsonPatchDocument.AppendReplace | azure-functions/twin-updates/ProcessDTRoutedData.cs:218 | appends one "replace" operation and changes nothing else |
| Store.ApplyWrite | azure-functions/twin-updates/ProcessDTRoutedData.cs:225-234 | an update request keeps the set of twins; an accepted one changes only its twin, to the patched contents; a refused one changes nothing |
| Store.ApplyWrites | azure-functions/twin-updates/ProcessDTRoutedData.cs:117-188 | the requests of an invocation keep the set of twins and leave every twin none of them targets unchanged |
| Store.TwinStore.UpdateDigitalTwin | azure-functions/twin-updates/ProcessDTRoutedData.cs:228 | logs the request and applies it when the store accepts it; the result says whether it did |
| Traversal.LastSensorsSource | azure-functions/twin-updates/ProcessDTRoutedData.cs:125-132 | no booth exactly when no incoming relationship is named `sensors`; otherwise the source of a relationship named `sensors` after which none is |
| Traversal.FindBoothId | azure-functions/twin-updates/ProcessDTRoutedData.cs:128-132 | the loop that overwrites `exhibitionBoothId` ends with the last `sensors` source |
| Traversal.FindBooth | azure-functions/twin-updates/ProcessDTRoutedData.cs:141-144 | the booth is null exactly when the query returns no twin, and otherwise is the last twin returned |
| Traversal.HasStoredInfo | azure-functions/twin-updates/ProcessDTRoutedData.cs:153-156 | a join row takes part exactly when it has a `Sensor` entry whose contents hold `environmental_info` (a definition, no contract) |
| Traversal.StoredRowIndices | azure-functions/twin-updates/ProcessDTRoutedData.cs:151-157 | the positions of the rows that take part: strictly increasing, each a row whose sensor holds a reading, and every such row among them |
| Traversal.SensorsWithInfo | azure-functions/twin-updates/ProcessDTRoutedData.cs:151-157 | the sensors taken from the join rows are those of the rows that take part, one per such row and in query order, each holding a stored reading |
| Traversal.StoredMetric | azure-functions/twin-updates/ProcessDTRoutedData.cs:162-164 | a stored metric is absent exactly when its key is missing; a number is its value; a JSON null is not C# null and throws an argument error; other failures come from a present key holding neither a number nor a boolean |
| Traversal.StoredInfo | azure-functions/twin-updates/ProcessDTRoutedData.cs:158-165 | a stored reading converts exactly when it is an object whose present metrics all convert; each metric is then absent for a missing key and the converted value otherwise |
| Traversal.SiblingInfos | azure-functions/twin-updates/ProcessDTRoutedData.cs:148-174 | the sibling list succeeds exactly when every sensor with a stored reading converts, and then holds one converted reading per such sensor, in query order |
| Traversal.SiblingErrorPersists | azure-functions/twin-updates/ProcessDTRoutedData.cs:151-165 | once a row's stored reading fails to convert, later rows do not change the outcome |
| Traversal.GatherSensorInfo | azure-functions/twin-updates/ProcessDTRoutedData.cs:148-174 | the loop that grows `sensorList` computes the sibling list, stopping at the first conversion failure |
| Traversal.MissingStoredMetricIsAbsent | azure-functions/twin-updates/ProcessDTRoutedData.cs:162-164 | a metric key missing from a stored reading gives an absent metric, not 0 |
| Traversal.StoredReadingRoundTrip | azure-functions/twin-updates/ProcessDTRoutedData.cs:158-165 | a reading written by the function reads back as the same reading |
| ProcessDTRoutedData.ContainsText | azure-functions/twin-updates/ProcessDTRoutedData.cs:93 | `string.Contains` holds exactly when the word occurs at some position of the text |
| ProcessDTRoutedData.MissingCharacterRulesOut | azure-functions/twin-updates/ProcessDTRoutedData.cs:93 | a text lacking one of the word's characters does not contain the word |
| ProcessDTRoutedData.PassesFilter | azure-functions/twin-updates/ProcessDTRoutedData.cs:53-97 | an event is processed exactly when the service URL is set, the client was built, an event with data arrived, its model id starts with `dtmi:ttnlwstack` and its data does not contain `environmental_info` (a definition, no contract) |
| ProcessDTRoutedData.Plan | azure-functions/twin-updates/ProcessDTRoutedData.cs:45-204 | the specification of `Run`: how it ends, the queries it issues and the writes it sends, the checks of lines 53-97 first, then the first sensor twin (a definition; its properties are the `PipelineProperties` lemmas) |
| ProcessDTRoutedData.SensorPlan | azure-functions/twin-updates/ProcessDTRoutedData.cs:109-197 | the queries so far stay first, and a payload that cannot be decoded or normalised faults before any write |
| ProcessDTRoutedData.ReadingPlan | azure-functions/twin-updates/ProcessDTRoutedData.cs:117-190 | one or two writes: the sensor's patch of its reading first, the booth's second exactly when the invocation aggregates, each one operation at `/environmental_info`; the relationship enumeration follows the queries so far |
| ProcessDTRoutedData.AggregationWrites | azure-functions/twin-updates/ProcessDTRoutedData.cs:137-188 | at most one write, present exactly when the sibling list is built and a booth twin was returned: the last booth twin's patch of the aggregate |
| ProcessDTRoutedData.AggregationOutcome | azure-functions/twin-updates/ProcessDTRoutedData.cs:137-188 | aggregated exactly when the sibling list is built and a booth twin was returned; otherwise the escaping exception, the conversion's error or a null reference |
| ProcessDTRoutedData.UpdateEnvironmentalInfo | azure-functions/twin-updates/ProcessDTRoutedData.cs:206-235 | sends exactly one update with the built patch; the store changes only as that request makes it change, and a refusal is swallowed |
| ProcessDTRoutedData.Run | azure-functions/twin-updates/ProcessDTRoutedData.cs:45-204 | the outcome and queries are those of `Plan`; the store's log grows by exactly the writes of `Plan`, and its twins become those writes applied in order |
| ProcessDTRoutedData.NormalizeReading | azure-functions/twin-updates/ProcessDTRoutedData.cs:101-115 | setting the fields one metric at a time gives the reading `Normalize` specifies |
| ProcessDTRoutedData.ConsolidateSensor | azure-functions/twin-updates/ProcessDTRoutedData.cs:109-117 | the handling of the first twin matches `SensorPlan`, in outcome, queries, log and twins |
| ProcessDTRoutedData.ConsolidateReading | azure-functions/twin-updates/ProcessDTRoutedData.cs:117-190 | the sensor write, the parent lookup and the booth's update match `ReadingPlan` |
| ProcessDTRoutedData.UpdateBooth | azure-functions/twin-updates/ProcessDTRoutedData.cs:137-188 | issues the booth query and the join query, then writes the booth's average, or faults on a failed conversion or a missing booth |
| PipelineProperties.FilteredEventTouchesNothing | azure-functions/twin-updates/ProcessDTRoutedData.cs:53-97 | no twin is read exactly when the filter stops the event (no URL, no client, no event, a model id not starting `dtmi:ttnlwstack`, data mentioning `environmental_info`); such an event writes nothing; any other starts with the query by id |
| PipelineProperties.WritesSensorThenBooth | azure-functions/twin-updates/ProcessDTRoutedData.cs:109-197 | at most two writes, the first to the first sensor twin and the second, present exactly when the invocation aggregates, to the booth; each is one operation at `/environmental_info` |
| PipelineProperties.SensorWriteIsNormalizedReading | azure-functions/twin-updates/ProcessDTRoutedData.cs:111-117 | the sensor's write is the patch of its normalised reading, which has all three metrics, as "replace" exactly when the sensor had a reading |
| PipelineProperties.NoBoothMeansSensorOnly | azure-functions/twin-updates/ProcessDTRoutedData.cs:125-135 | without a `sensors` relationship no join query runs, at most the sensor is written, and a decodable sensor ends as sensor-only |
| PipelineProperties.BoothWriteIsAverage | azure-functions/twin-updates/ProcessDTRoutedData.cs:146-188 | when the invocation aggregates, the booth's write is the patch of the per-metric means of the sibling list, one entry per sensor with a stored reading |
| PipelineProperties.OnlyFirstSensorTwinMatters | azure-functions/twin-updates/ProcessDTRoutedData.cs:109-197 | twins after the first returned by the id query do not affect the invocation |
| PipelineProperties.OtherTwinsUnchanged | azure-functions/twin-updates/ProcessDTRoutedData.cs:117-188 | every twin other than the sensor and the booth keeps its contents |
| PipelineProperties.RefusedSensorWriteStillUpdatesBooth | azure-functions/twin-updates/ProcessDTRoutedData.cs:117-120 | after a refused sensor write the booth still gets the average, and only the booth changes |
| PipelineProperties.RefusedThenAccepted | azure-functions/twin-updates/ProcessDTRoutedData.cs:225-234 | a refused write followed by the booth's accepted patch changes the booth's `environmental_info` alone |
| Scenarios.SensorModelIsSensor | azure-functions/twin-updates/ProcessDTRoutedData.cs:91 | the sample model id passes the sensor prefix check |
| Scenarios.NormalizedPayload | azure-functions/twin-updates/ProcessDTRoutedData.cs:113-115 | the payload `temp` 21.5, `Hum_SHT` 60 normalises to 21.5, 60 and co2 0 |
| Scenarios.SensorPatch | azure-functions/twin-updates/ProcessDTRoutedData.cs:216-223 | the sensor holding 20/50 gets a "replace" of all three metrics |
| Scenarios.SensorWithoutBooth | azure-functions/twin-updates/ProcessDTRoutedData.cs:109-135 | a sensor whose only relationship is not `sensors` is queried twice and written once, a "replace" with its reading |
| Scenarios.TwoStoredReadings | azure-functions/twin-updates/ProcessDTRoutedData.cs:151-166 | join rows holding sensor-1 (20/50) and sensor-2 (24/70) give a sibling list of those two readings, in order |
| Scenarios.AverageOfTwoReadings | azure-functions/twin-updates/ProcessDTRoutedData.cs:177-179 | readings 20/50 and 24/70 without co2 average to 22/60 without co2 |
| Scenarios.BoothPatch | azure-functions/twin-updates/ProcessDTRoutedData.cs:208-223 | the booth without a reading gets an "add" with temperature and humidity and no co2 member |
| Scenarios.BoothAverageOfTwoSensors | azure-functions/twin-updates/ProcessDTRoutedData.cs:135-188 | with join rows holding the stored sensor-1 and sensor-2, as a store answers that refused sensor-1's update, the sensor in booth-7 leads to two writes, the second the booth's patch of the average 22/60 |
| Scenarios.OwnWriteIsIgnored | azure-functions/twin-updates/ProcessDTRoutedData.cs:93-97 | an event whose data mentions `environmental_info` reads and writes nothing |
| Scenarios.MissingServiceUrlDoesNothing | azure-functions/twin-updates/ProcessDTRoutedData.cs:53-57 | without the service URL nothing is read or written |
| Scenarios.RefusedSensorWriteScenario | azure-functions/twin-updates/ProcessDTRoutedData.cs:117-188 | with sensor-1's updates refused, only booth-7 changes, gaining the average |
| Scenarios.BoothGetsAverage | azure-functions/twin-updates/ProcessDTRoutedData.cs:117-188 | for any aggregating invocation on sensor-1 and booth-7 with the sibling readings 20/50 and 24/70, a store refusing sensor-1 ends with booth-7 holding 22/60, sensor-1 unchanged |
| Scenarios.RefusedSensorUpdate | azure-functions/twin-updates/ProcessDTRoutedData.cs:225-234 | run against that store, the invocation aggregates, sensor-1 is unchanged and booth-7 holds the average |

## Left out

- Authentication and client construction (lines 59-72) are SDK calls. They are reduced to a flag saying whether construction succeeded.
- `Thread.Sleep(3000)` (lines 104 and 122), eventual consistency and concurrent invocations are timing behaviour, so they are not modelled.
- The query strings and the store's query engine are not modelled. The three query results and the relationship enumeration are input sequences.
- Newtonsoft parsing of the event data is not modelled. The model id it extracts (line 86) is part of the event value, and the data is kept as text for the `Contains` check. A failure to parse the data or to find `data.modelId` is not modelled.
- Member order in serialised JSON and the textual form of the patch are not modelled. A serialised reading is a JSON object value.
- Logging is not modelled.
- JsonValues.AsObject: the round trip of lines 111 and 158, `ToString()` of the stored property followed by `JsonConvert.DeserializeObject`, is modelled as the identity on JSON values. A string-valued property whose text is a JSON object therefore faults here with `InvalidCast`, but decodes in the source. This holds for a `decodedPayload` (line 111) and for a stored `environmental_info` (line 158) alike.
- The query answers are inputs and are not derived from the store's twins. A later query in the same invocation therefore does not see an earlier write, and the scenarios with booth-7 use join rows that agree with the store only because sensor-1's update is refused there.
- The enumerations of the query by id, the relationship enumeration, the booth query and the join query (lines 109, 128, 141 and 151) run outside any `try`, so a failing service call escapes `Run`. In the model every answer arrives.
- The model id test is an ordinal prefix test. `string.StartsWith(string)` (line 91) is culture-sensitive; the two agree for the ASCII model ids the model handles.
- A null event subject (line 83) throws in `ToString`. In the model `Event.subject` is always a string.
- IEEE double rounding is not modelled: readings and averages are reals.
- JsonValues.ToDouble: in the source a string token is parsed by Newtonsoft's invariant-culture double parser. That parser is not modelled, so every string token is a `Format` failure here, including numeric strings such as `"21.5"` that the source converts.
- JSON Pointer escapes (`~0`, `~1`) and nested paths are not modelled. The store refuses any pointer other than a single top-level member, and the function writes no other kind.
- Why the store refuses an update (authorisation, model validation, throttling, a missing twin) is not modelled. A refused twin is a member of the store's `rejected` set, or is missing, or its patch fails under RFC 6902.
- azure-functions/twin-updates/Dto/People.cs is not part of this model. It is an unused data class with no logic.
