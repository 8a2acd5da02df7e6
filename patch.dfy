/**
 * The JSON Patch written by `updateEnvironmentalInfo`, and the meaning of
 * the two operations it uses as the Twin Store applies them: RFC 6902
 * "add" (section 4.1) and "replace" (section 4.3) on a member of the
 * twin's top-level object, with a patch failing as a whole when one of its
 * operations fails (RFC 6902, section 5).
 */
module JsonPatch {
  import opened Wrappers
  import opened JsonValues
  import opened Twins

  datatype OpKind = Add | Replace

  /** One operation of a patch: `{"op": ..., "path": ..., "value": ...}`. */
  datatype PatchOp = PatchOp(op: OpKind, path: string, value: Json)

  /** Why the store refuses a patch. */
  datatype PatchError =
    | UnsupportedPath  // a path that is not a single top-level member
    | NoSuchMember     // "replace" of a member that does not exist

  /** The JSON Pointer (RFC 6901) of the canonical reading. */
  const ENVIRONMENTAL_INFO_PATH := "/" + ENVIRONMENTAL_INFO

  /**
   * `JsonConvert.SerializeObject(e)` with `NullValueHandling.Ignore`: an
   * object with one number member per present metric; absent metrics are
   * left out rather than written as null.
   */
  function Serialize(e: EnvironmentalInfo): (r: Json)
    ensures r.JObject?
    ensures forall m :: MetricName(m) in r.members <==> e.Get(m).Some?
    ensures forall m :: e.Get(m).Some? ==> r.members[MetricName(m)] == JNumber(e.Get(m).value)
    ensures forall k :: k in r.members ==> k == MetricName(Temperature) || k == MetricName(Humidity) || k == MetricName(Co2)
  {
    var t := if e.temperature.Some? then map[MetricName(Temperature) := JNumber(e.temperature.value)] else map[];
    var h := if e.humidity.Some? then map[MetricName(Humidity) := JNumber(e.humidity.value)] else map[];
    var c := if e.co2.Some? then map[MetricName(Co2) := JNumber(e.co2.value)] else map[];
    JObject(t + h + c)
  }

  /**
   * The patch `updateEnvironmentalInfo` builds for a twin whose contents were
   * read as `contents`: "replace" when the twin already has the reading,
   * "add" otherwise.
   */
  function BuildPatch(contents: map<string, Json>, e: EnvironmentalInfo): (r: seq<PatchOp>)
    ensures |r| == 1 && r[0].path == ENVIRONMENTAL_INFO_PATH && r[0].value == Serialize(e)
    ensures r[0].op == Replace <==> ENVIRONMENTAL_INFO in contents
    ensures ApplyPatch(contents, r) == Ok(contents[ENVIRONMENTAL_INFO := Serialize(e)])
  {
    var op := if ENVIRONMENTAL_INFO in contents then Replace else Add;
    [PatchOp(op, ENVIRONMENTAL_INFO_PATH, Serialize(e))]
  }

  /**
   * The member a pointer names, for pointers of the form "/name" whose name
   * needs no escaping; every pointer the function writes has this form.
   */
  function TopLevelMember(path: string): (r: Result<string, PatchError>)
    ensures r.Ok? ==> path == "/" + r.value
  {
    if |path| >= 1 && path[0] == '/' && forall i :: 1 <= i < |path| ==> path[i] != '/' && path[i] != '~'
    then Ok(path[1..])
    else Err(UnsupportedPath)
  }

  /** One operation applied to a twin's contents. */
  function ApplyOp(doc: map<string, Json>, op: PatchOp): Result<map<string, Json>, PatchError>
  {
    match TopLevelMember(op.path)
    case Err(e) => Err(e)
    case Ok(name) =>
      match op.op
      case Add => Ok(doc[name := op.value])
      case Replace => if name in doc then Ok(doc[name := op.value]) else Err(NoSuchMember)
  }

  /** The operations in order; the first failure fails the whole patch. */
  function ApplyPatch(doc: map<string, Json>, ops: seq<PatchOp>): Result<map<string, Json>, PatchError>
    decreases |ops|
  {
    if ops == [] then Ok(doc)
    else
      match ApplyOp(doc, ops[0])
      case Err(e) => Err(e)
      case Ok(next) => ApplyPatch(next, ops[1..])
  }

  lemma EnvironmentalInfoPathIsTopLevel()
    ensures TopLevelMember(ENVIRONMENTAL_INFO_PATH) == Ok(ENVIRONMENTAL_INFO)
  {
  }

  /**
   * Applying the built patch a second time changes nothing: the reading is
   * present after the first application, so "add" or "replace" both just
   * write the same value again.
   */
  lemma PatchIsIdempotent(contents: map<string, Json>, e: EnvironmentalInfo)
    ensures var p := BuildPatch(contents, e);
      ApplyPatch(contents, p).Ok? && ApplyPatch(ApplyPatch(contents, p).value, p) == ApplyPatch(contents, p)
  {
    var p := BuildPatch(contents, e);
    var once := contents[ENVIRONMENTAL_INFO := Serialize(e)];
    EnvironmentalInfoPathIsTopLevel();
    assert ApplyOp(once, p[0]) == Ok(once[ENVIRONMENTAL_INFO := Serialize(e)]);
    assert once[ENVIRONMENTAL_INFO := Serialize(e)] == once;
    assert p[1..] == [];
  }

  /**
   * The choice is made on the twin as it was read: when the stored twin no
   * longer has the reading, the "replace" the function sends fails.
   */
  lemma StaleReplaceFails(read: map<string, Json>, stored: map<string, Json>, e: EnvironmentalInfo)
    requires ENVIRONMENTAL_INFO in read && ENVIRONMENTAL_INFO !in stored
    ensures ApplyPatch(stored, BuildPatch(read, e)) == Err(NoSuchMember)
  {
    EnvironmentalInfoPathIsTopLevel();
  }

  /**
   * Whatever the stored twin holds, the built patch succeeds when it is an
   * "add" or the member exists, and then sets only the reading.
   */
  lemma PatchEffect(read: map<string, Json>, stored: map<string, Json>, e: EnvironmentalInfo)
    requires ENVIRONMENTAL_INFO !in read || ENVIRONMENTAL_INFO in stored
    ensures ApplyPatch(stored, BuildPatch(read, e)) == Ok(stored[ENVIRONMENTAL_INFO := Serialize(e)])
  {
    EnvironmentalInfoPathIsTopLevel();
    assert BuildPatch(read, e)[1..] == [];
  }

  /** The mutable `JsonPatchDocument` the operation is appended to. */
  class JsonPatchDocument {
    var ops: seq<PatchOp>

    constructor ()
      ensures ops == []
    {
      ops := [];
    }

    /** `AppendAddRaw(path, value)`. */
    method AppendAdd(path: string, value: Json)
      modifies this
      ensures ops == old(ops) + [PatchOp(Add, path, value)]
    {
      ops := ops + [PatchOp(Add, path, value)];
    }

    /** `AppendReplaceRaw(path, value)`. */
    method AppendReplace(path: string, value: Json)
      modifies this
      ensures ops == old(ops) + [PatchOp(Replace, path, value)]
    {
      ops := ops + [PatchOp(Replace, path, value)];
    }
  }
}
