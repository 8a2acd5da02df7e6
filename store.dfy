/**
 * The Twin Store as far as the function writes to it: the twins' contents,
 * the ordered log of update requests it receives, and the twins whose update
 * it refuses (standing for every reason the service call can throw).
 */
module Store {
  import opened Wrappers
  import opened JsonValues
  import opened JsonPatch

  /** One `UpdateDigitalTwinAsync(twinId, patch)` request. */
  datatype Write = Write(twinId: string, patch: seq<PatchOp>)

  /** Whether the store carries out a request: the twin exists, is not refused, and the patch applies. */
  predicate Accepts(twins: map<string, map<string, Json>>, rejected: set<string>, w: Write)
  {
    w.twinId in twins && w.twinId !in rejected && ApplyPatch(twins[w.twinId], w.patch).Ok?
  }

  /** The twins after one request; a refused request changes nothing (the patch is atomic). */
  function ApplyWrite(twins: map<string, map<string, Json>>, rejected: set<string>, w: Write): (r: map<string, map<string, Json>>)
    ensures r.Keys == twins.Keys
    ensures forall id :: id in twins && id != w.twinId ==> r[id] == twins[id]
    ensures Accepts(twins, rejected, w) ==> r[w.twinId] == ApplyPatch(twins[w.twinId], w.patch).value
    ensures !Accepts(twins, rejected, w) ==> r == twins
  {
    if Accepts(twins, rejected, w) then twins[w.twinId := ApplyPatch(twins[w.twinId], w.patch).value] else twins
  }

  /** The twins after a sequence of requests, each accepted or refused on its own. */
  function ApplyWrites(twins: map<string, map<string, Json>>, rejected: set<string>, ws: seq<Write>): (r: map<string, map<string, Json>>)
    ensures r.Keys == twins.Keys
    ensures forall id :: id in twins && (forall k :: 0 <= k < |ws| ==> ws[k].twinId != id) ==> r[id] == twins[id]
  {
    if ws == [] then twins
    else
      var rest := ApplyWrites(ApplyWrite(twins, rejected, ws[0]), rejected, ws[1..]);
      assert forall k :: 1 <= k < |ws| ==> ws[k] == ws[1..][k - 1];
      rest
  }

  class TwinStore {
    var twins: map<string, map<string, Json>>
    var rejected: set<string>
    var log: seq<Write>

    constructor (twins: map<string, map<string, Json>>, rejected: set<string>)
      ensures this.twins == twins && this.rejected == rejected && log == []
    {
      this.twins := twins;
      this.rejected := rejected;
      log := [];
    }

    /** `UpdateDigitalTwinAsync`: `ok` is false where the SDK call throws. */
    method UpdateDigitalTwin(id: string, patch: seq<PatchOp>) returns (ok: bool)
      modifies this
      ensures ok <==> Accepts(old(twins), old(rejected), Write(id, patch))
      ensures twins == ApplyWrite(old(twins), old(rejected), Write(id, patch))
      ensures rejected == old(rejected) && log == old(log) + [Write(id, patch)]
    {
      log := log + [Write(id, patch)];
      ok := false;
      if id in twins && id !in rejected {
        var result := ApplyPatch(twins[id], patch);
        if result.Ok? {
          twins := twins[id := result.value];
          ok := true;
        }
      }
    }
  }
}
