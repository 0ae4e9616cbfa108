/** The configuration of one self-service process: the stages it runs, in
    order, the snapshot token it uses and the storage it keeps state in.
    The stage config, token config and storage types are left abstract. */
module ProcessInstanceConfigs {
  import opened JavaLang

  /** A java.util.ArrayList: a list object whose elements can be changed by
      anyone holding a reference to it. */
  class ArrayList<T> {
    var elements: seq<T>

    /** new ArrayList<>(other): a new list with the same elements in the same order. */
    constructor (elements: seq<T>)
      ensures this.elements == elements
    {
      this.elements := elements;
    }

    method Add(x: T)
      modifies this
      ensures elements == old(elements) + [x]
    {
      elements := elements + [x];
    }
  }

  class ProcessInstanceConfig<StageConfig, SnapshotTokenConfig, StorageType> {
    var stageConfigs: ArrayList?<StageConfig>
    var snapshotTokenConfig: Option<SnapshotTokenConfig>
    var storageType: Option<StorageType>

    /** A new config: every field is null until its setter is called. */
    constructor ()
      ensures stageConfigs == null && snapshotTokenConfig.None? && storageType.None?
    {
      stageConfigs := null;
      snapshotTokenConfig := None;
      storageType := None;
    }

    /** The stored list itself, not a copy: whoever holds the result can
        change the configuration through it. */
    function GetStageConfigs(): ArrayList?<StageConfig>
      reads this
    {
      stageConfigs
    }

    function GetSnapshotTokenConfig(): Option<SnapshotTokenConfig>
      reads this
    {
      snapshotTokenConfig
    }

    function GetStorageType(): Option<StorageType>
      reads this
    {
      storageType
    }

    /** Stores a copy of the given list; its order is the order in which the
        stages run. */
    method SetStageConfigs(configs: ArrayList?<StageConfig>)
      returns (r: Result<ProcessInstanceConfig<StageConfig, SnapshotTokenConfig, StorageType>>)
      modifies this
      ensures configs == null ==> r == Failure(NullPointerException) && unchanged(this)
      ensures configs != null ==> r == Success(this)
      ensures configs != null ==>
        GetStageConfigs() != null && fresh(GetStageConfigs()) &&
        GetStageConfigs().elements == configs.elements
      ensures GetSnapshotTokenConfig() == old(GetSnapshotTokenConfig())
      ensures GetStorageType() == old(GetStorageType())
    {
      if configs == null {
        return Failure(NullPointerException);
      }
      stageConfigs := new ArrayList(configs.elements);
      r := Success(this);
    }

    method SetSnapshotTokenConfig(config: Option<SnapshotTokenConfig>)
      returns (r: Result<ProcessInstanceConfig<StageConfig, SnapshotTokenConfig, StorageType>>)
      modifies this
      ensures config.None? ==> r == Failure(NullPointerException) && unchanged(this)
      ensures config.Some? ==> r == Success(this) && GetSnapshotTokenConfig() == config
      ensures GetStageConfigs() == old(GetStageConfigs())
      ensures GetStorageType() == old(GetStorageType())
    {
      if config.None? {
        return Failure(NullPointerException);
      }
      snapshotTokenConfig := config;
      r := Success(this);
    }

    method SetStorageType(storage: Option<StorageType>)
      returns (r: Result<ProcessInstanceConfig<StageConfig, SnapshotTokenConfig, StorageType>>)
      modifies this
      ensures storage.None? ==> r == Failure(NullPointerException) && unchanged(this)
      ensures storage.Some? ==> r == Success(this) && GetStorageType() == storage
      ensures GetStageConfigs() == old(GetStageConfigs())
      ensures GetSnapshotTokenConfig() == old(GetSnapshotTokenConfig())
    {
      if storage.None? {
        return Failure(NullPointerException);
      }
      storageType := storage;
      r := Success(this);
    }
  }

  /** The caller keeps its list after handing it over: whatever it adds
      later does not reach the stored stage list. */
  method ChangeListAfterSet<S, C, T>(config: ProcessInstanceConfig<S, C, T>, list: ArrayList<S>, extra: S)
    modifies config, list
    ensures list.elements == old(list.elements) + [extra]
    ensures config.GetStageConfigs() != null && config.GetStageConfigs() != list
    ensures config.GetStageConfigs().elements == old(list.elements)
  {
    var _ := config.SetStageConfigs(list);
    list.Add(extra);
  }

  /** The getter hands out the stored list, so an element added to the list
      it returns is added to the configuration's stages. */
  method ChangeListFromGetter<S, C, T>(config: ProcessInstanceConfig<S, C, T>, extra: S)
    requires config.GetStageConfigs() != null
    modifies config.GetStageConfigs()
    ensures config.GetStageConfigs() == old(config.GetStageConfigs())
    ensures config.GetStageConfigs().elements == old(config.GetStageConfigs().elements) + [extra]
  {
    config.GetStageConfigs().Add(extra);
  }
}
