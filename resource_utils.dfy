// datagrowth/resources/utils.py: the summary of a list of resources that
// tasks hand back, and the in-place merge of such summaries into a dict keyed
// by resource model.

module ResourceUtils {
  import opened Wrappers

  /** What the summary reads from a resource. */
  datatype Resource = Resource(appLabel: string, modelName: string, id: int, success: bool)

  /** The `resources` argument: missing, one resource, or a list. */
  datatype Resources = Missing | Single(resource: Resource) | Many(items: seq<Resource>)

  /** The serialization dict: "success", "resource", "id" and "ids". */
  datatype Serialization = Serialization(success: bool, resource: Option<string>, id: Option<int>, ids: seq<int>)

  function AsList(resources: Resources): seq<Resource>
  {
    match resources
    case Missing => []
    case Single(r) => [r]
    case Many(items) => items
  }

  function Ids(rs: seq<Resource>): (r: seq<int>)
    ensures |r| == |rs| && forall k :: 0 <= k < |rs| ==> r[k] == rs[k].id
  {
    seq(|rs|, k requires 0 <= k < |rs| => rs[k].id)
  }

  function AllSucceeded(rs: seq<Resource>): bool
  {
    forall k :: 0 <= k < |rs| ==> rs[k].success
  }

  function ModelName(r: Resource): string
  {
    r.appLabel + "." + r.modelName
  }

  /** `serialize_resources`: without resources an unsuccessful, empty
      summary; otherwise success when every resource succeeded, the model and
      id of the first resource, and every id in order. */
  function SerializeResources(resources: Resources): (r: Serialization)
    ensures AsList(resources) == [] ==> r == Serialization(false, None, None, [])
    ensures AsList(resources) != [] ==>
      r.resource == Some(ModelName(AsList(resources)[0])) && r.id == Some(AsList(resources)[0].id)
      && (r.success <==> forall k :: 0 <= k < |AsList(resources)| ==> AsList(resources)[k].success)
      && |r.ids| == |AsList(resources)| && forall k :: 0 <= k < |r.ids| ==> r.ids[k] == AsList(resources)[k].id
  {
    var rs := AsList(resources);
    if rs == [] then Serialization(false, None, None, [])
    else Serialization(AllSucceeded(rs), Some(ModelName(rs[0])), Some(rs[0].id), Ids(rs))
  }

  /** How an existing entry absorbs a new summary of the same model. */
  function Merge(existing: Serialization, info: Serialization): (r: Serialization)
    ensures r.success == (existing.success && info.success) && r.ids == existing.ids + info.ids
    ensures r.resource == existing.resource && r.id == existing.id
  {
    existing.(success := existing.success && info.success, ids := existing.ids + info.ids)
  }

  /** Merging the summaries of two lists of the same model is summarising
      the two lists together. */
  lemma MergeSerializations(xs: seq<Resource>, ys: seq<Resource>)
    requires xs != [] && ys != []
    ensures Merge(SerializeResources(Many(xs)), SerializeResources(Many(ys))) == SerializeResources(Many(xs + ys))
  {
    assert Ids(xs) + Ids(ys) == Ids(xs + ys);
    assert (xs + ys)[0] == xs[0];
    assert AllSucceeded(xs + ys) == (AllSucceeded(xs) && AllSucceeded(ys)) by {
      if AllSucceeded(xs) && AllSucceeded(ys) {
        forall k | 0 <= k < |xs + ys| ensures (xs + ys)[k].success {
          if k >= |xs| { assert (xs + ys)[k] == ys[k - |xs|]; }
        }
      }
      if AllSucceeded(xs + ys) {
        forall k | 0 <= k < |ys| ensures ys[k].success { assert (xs + ys)[|xs| + k] == ys[k]; }
        forall k | 0 <= k < |xs| ensures xs[k].success { assert (xs + ys)[k] == xs[k]; }
      }
    }
  }

  /** The dict `update_serialized_resources` updates in place. */
  class SerializationTable {
    var entries: map<string, Serialization>

    constructor (entries: map<string, Serialization>)
      ensures this.entries == entries
    {
      this.entries := entries;
    }

    /** `update_serialized_resources`: nothing happens without resources; an
        existing entry for the model ANDs its success and appends the ids,
        duplicates kept; a new model gets the summary as it is. */
    method Update(resources: Resources)
      modifies this
      ensures AsList(resources) == [] ==> entries == old(entries)
      ensures AsList(resources) != [] ==>
        var info := SerializeResources(resources);
        var key := ModelName(AsList(resources)[0]);
        entries == old(entries)[key := if key in old(entries) then Merge(old(entries)[key], info) else info]
    {
      if AsList(resources) == [] {
        return;
      }
      var info := SerializeResources(resources);
      var key := info.resource.value;
      if key in entries {
        var existing := entries[key];
        entries := entries[key := existing.(success := existing.success && info.success, ids := existing.ids + info.ids)];
        return;
      }
      entries := entries[key := info];
    }
  }
}
