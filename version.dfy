// datagrowth/datatypes/documents/db/version.py: a dataset version, how it is
// built from its dataset, how it passes its task definitions on to the
// collections and documents it holds, and how finishing it settles its state
// and which version is current. The stored versions the database update
// touches are the rows of a VersionRows object.

module DatasetVersions {
  import opened Wrappers
  import opened Json

  datatype GrowthStrategy = Freeze | Revise | Reset | Stack
  datatype GrowthState = Pending | Growing | Complete | Error

  /** What `build` reads from a dataset: `GROWTH_STRATEGY`,
      `get_task_definitions()` and `version`. */
  datatype DatasetSummary = DatasetSummary(growthStrategy: GrowthStrategy, taskDefinitions: map<string, Json>, version: string)

  /** The fields of a collection or document that `influence` reads and
      sets. */
  datatype InstanceFields = InstanceFields(datasetVersion: Option<nat>, modelName: string, tasks: Json)

  /** The `is_current` flags of the stored versions of the model. */
  class VersionRows {
    var isCurrent: seq<bool>

    constructor (isCurrent: seq<bool>)
      ensures this.isCurrent == isCurrent
    {
      this.isCurrent := isCurrent;
    }
  }

  /** At most one of the stored versions, and this one, is current. */
  predicate AtMostOneCurrent(rows: seq<bool>, self: bool)
  {
    (forall i, j :: 0 <= i < j < |rows| ==> !(rows[i] && rows[j]))
    && (self ==> forall i :: 0 <= i < |rows| ==> !rows[i])
  }

  class DatasetVersion {
    const id: nat
    var growthStrategy: GrowthStrategy
    var taskDefinitions: map<string, Json>
    var version: string
    var isCurrent: bool
    var state: GrowthState

    /** `build(dataset)`: a pending, not current version with the growth
        strategy, task definitions and version of the dataset. */
    constructor Build(id: nat, dataset: DatasetSummary)
      ensures this.id == id && growthStrategy == dataset.growthStrategy
      ensures taskDefinitions == dataset.taskDefinitions && version == dataset.version
      ensures !isCurrent && state == Pending
    {
      this.id := id;
      growthStrategy := dataset.growthStrategy;
      taskDefinitions := dataset.taskDefinitions;
      version := dataset.version;
      isCurrent := false;
      state := Pending;
    }

    /** `evaluate_dataset_version`: the per-task success, failure and skip
        counts it records come from database queries; its verdict is always
        a pass. */
    method EvaluateDatasetVersion() returns (passed: bool)
      ensures passed
    {
      passed := true;
    }

    /** `finish_processing` once `evaluate_dataset_version` has given its
        verdict (a subclass may override the evaluation): a passing version
        becomes complete and, unless its strategy is "stack", the current
        version, every stored version losing that flag; a failing one is
        marked as an error and no `is_current` flag changes. */
    method FinishWith(rows: VersionRows, passed: bool)
      modifies this, rows
      ensures state == (if passed then Complete else Error)
      ensures passed && growthStrategy != Stack ==> isCurrent && rows.isCurrent == seq(|old(rows.isCurrent)|, _ => false)
      ensures !passed || growthStrategy == Stack ==> isCurrent == old(isCurrent) && rows.isCurrent == old(rows.isCurrent)
      ensures growthStrategy == old(growthStrategy) && taskDefinitions == old(taskDefinitions) && version == old(version)
      ensures passed && growthStrategy != Stack ==> AtMostOneCurrent(rows.isCurrent, isCurrent)
    {
      if passed && growthStrategy != Stack {
        rows.isCurrent := seq(|rows.isCurrent|, _ => false);
        isCurrent := true;
      }
      state := if passed then Complete else Error;
    }

    /** `finish_processing` with the evaluation defined here, which always
        passes: the version becomes complete and, unless its strategy is
        "stack", the current one. */
    method FinishProcessing(rows: VersionRows)
      modifies this, rows
      ensures state == Complete
      ensures growthStrategy != Stack ==> isCurrent && rows.isCurrent == seq(|old(rows.isCurrent)|, _ => false)
      ensures growthStrategy == Stack ==> isCurrent == old(isCurrent) && rows.isCurrent == old(rows.isCurrent)
      ensures growthStrategy == old(growthStrategy) && taskDefinitions == old(taskDefinitions) && version == old(version)
      ensures growthStrategy != Stack ==> AtMostOneCurrent(rows.isCurrent, isCurrent)
    {
      var passed := EvaluateDatasetVersion();
      FinishWith(rows, passed);
    }

    /** `influence(instance)`: an instance without a dataset version gets
        this one, and the task definitions for its model, when there are
        any, replace its tasks. */
    method Influence(instance: Instance)
      modifies instance
      ensures instance.datasetVersion == (if old(instance.datasetVersion) == None then Some(id) else old(instance.datasetVersion))
      ensures instance.tasks == (if instance.modelName in taskDefinitions then taskDefinitions[instance.modelName] else old(instance.tasks))
      ensures instance.Fields() == Influenced(old(instance.Fields()), id, taskDefinitions)
    {
      if instance.datasetVersion == None {
        instance.datasetVersion := Some(id);
      }
      if instance.modelName in taskDefinitions {
        instance.tasks := taskDefinitions[instance.modelName];
      }
    }
  }

  /** A collection or document as `influence` sees it. */
  class Instance {
    const modelName: string
    var datasetVersion: Option<nat>
    var tasks: Json

    constructor (modelName: string, datasetVersion: Option<nat>, tasks: Json)
      ensures this.modelName == modelName && this.datasetVersion == datasetVersion && this.tasks == tasks
    {
      this.modelName := modelName;
      this.datasetVersion := datasetVersion;
      this.tasks := tasks;
    }

    function Fields(): InstanceFields
      reads this
    {
      InstanceFields(datasetVersion, modelName, tasks)
    }
  }

  /** The fields `influence` leaves on an instance with these fields. */
  function Influenced(f: InstanceFields, id: nat, taskDefinitions: map<string, Json>): (r: InstanceFields)
    ensures r.modelName == f.modelName
    ensures r.datasetVersion.Some?
    ensures f.datasetVersion.Some? ==> r.datasetVersion == f.datasetVersion
    ensures f.modelName !in taskDefinitions ==> r.tasks == f.tasks
  {
    InstanceFields(if f.datasetVersion == None then Some(id) else f.datasetVersion,
                   f.modelName,
                   if f.modelName in taskDefinitions then taskDefinitions[f.modelName] else f.tasks)
  }

  /** Influencing twice is influencing once. */
  lemma InfluenceIdempotent(f: InstanceFields, id: nat, taskDefinitions: map<string, Json>)
    ensures Influenced(Influenced(f, id, taskDefinitions), id, taskDefinitions) == Influenced(f, id, taskDefinitions)
  {
  }
}
