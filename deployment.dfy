/**
 * A Workers deployment: a message and an ordered list of versions, each
 * with its traffic percentage, kept unique by version id through a keyed
 * upsert. The strategy is always "percentage".
 */
module Deployments {
  import opened Php
  import opened Keyed

  const Strategy: string := "percentage"
  const DefaultPercentage: int := 100

  /** Each version as the `{version_id, percentage}` array it is stored as. */
  function VersionEntries(versions: seq<(string, int)>): (r: seq<Value>)
    ensures |r| == |versions|
    ensures forall i :: 0 <= i < |versions| ==>
      r[i] == Map([("version_id", Str(versions[i].0)), ("percentage", Int(versions[i].1))])
  {
    seq(|versions|, i requires 0 <= i < |versions| => Map([("version_id", Str(versions[i].0)), ("percentage", Int(versions[i].1))]))
  }

  /** `toArray()`: the strategy, the message under `annotations["workers/message"]`, and the versions. */
  function SerializeDeployment(message: string, versions: seq<(string, int)>): (r: Value)
    ensures r.Map? && Keys(r.entries) == ["strategy", "annotations", "versions"]
    ensures r.entries[0].1 == Str("percentage")
    ensures r.entries[1].1 == Map([("workers/message", Str(message))])
    ensures r.entries[2].1 == List(VersionEntries(versions))
  {
    Map([
      ("strategy", Str(Strategy)),
      ("annotations", Map([("workers/message", Str(message))])),
      ("versions", List(VersionEntries(versions)))])
  }

  /** A new deployment has no versions: `versions` is serialised as the empty array. */
  lemma NoVersions(message: string)
    ensures SerializeDeployment(message, []) == Map([
      ("strategy", Str("percentage")),
      ("annotations", Map([("workers/message", Str(message))])),
      ("versions", List([]))])
  {
    assert VersionEntries([]) == [];
  }

  class Deployment {
    var message: string
    var versions: seq<(string, int)>

    /** Version ids are unique. */
    ghost predicate Valid()
      reads this
    {
      Unique(Keys(versions))
    }

    constructor(message: string)
      ensures Valid()
      ensures this.message == message && versions == []
    {
      this.message := message;
      versions := [];
    }

    method SetMessage(message: string)
      modifies this
      ensures this.message == message && versions == old(versions)
    {
      this.message := message;
    }

    /**
     * `addVersion`: replaces the version with this id where it is, or
     * appends it; the percentage is neither range-checked nor summed.
     */
    method AddVersion(versionId: string, percentage: int := DefaultPercentage)
      requires Valid()
      modifies this
      ensures Valid()
      ensures versions == Upsert(old(versions), versionId, percentage)
      ensures Find(versions, versionId) == Some(percentage)
      ensures message == old(message)
    {
      var index := FindIndex(versions, versionId);
      UpsertKeys(versions, versionId, percentage);
      UpsertLookup(versions, versionId, percentage);
      if index.Some? {
        versions := versions[index.value := (versionId, percentage)];
      } else {
        versions := versions + [(versionId, percentage)];
      }
    }

    function ToArray(): Value
      reads this
    {
      SerializeDeployment(message, versions)
    }
  }
}
