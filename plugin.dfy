/** The Huawei-cloud orchestrator plugin: an in-memory registry of descriptors by service
    name, and a persisted per-service provisioned-resource record kept in the orchestrator
    storage under the key (service, plugin name, "state"). */
module Plugin {
  import opened Common
  import opened Descriptor
  import opened Composite
  import opened Context
  import opened Factory

  const PluginName := "HuaweiCloudOrchestratorPlugin"
  const StateKey := "state"

  /** (service name, plugin name, key) */
  type StorageKey = (string, string, string)

  /** The contents of the orchestrator storage; `None` is a plugin made without one. */
  type Storage = Option<map<StorageKey, string>>

  /** Serialising a record and reading the text back gives the record. */
  ghost predicate RoundTrips(encode: OclResources -> string, decode: string -> Option<OclResources>)
  {
    forall r :: decode(encode(r)) == Some(r)
  }

  /** The context `start` builds for a service: its names, and fresh env and resource
      builders over the descriptor under "env" and "basic". */
  method StartContext(name: string, ocl: Ocl, defaultRecord: OclResources)
      returns (c: BuilderContext, env: AtomBuilder, basic: AtomBuilder)
    ensures fresh(c)
    ensures c.serviceName == Some(name) && c.pluginName == Some(PluginName)
    ensures c.builderMap == map[EnvType := env, BasicType := basic]
    ensures c.builderMap.Keys == {EnvType, BasicType}
    ensures env.kind == EnvBuilder && basic.kind == ResourceBuilder && env.ocl == ocl && basic.ocl == ocl
    ensures env.Valid() && env.Tree == Node(env, []) && basic.Valid() && basic.Tree == Node(basic, [])
  {
    c := new BuilderContext(defaultRecord);
    c.SetServiceName(name);
    c.SetPluginName(PluginName);
    var envR := CreateBuilder(EnvType, ocl);
    assert envR.Ok?;
    env := envR.value;
    c.PutBuilder(EnvType, env);
    var basicR := CreateBuilder(BasicType, ocl);
    assert basicR.Ok?;
    basic := basicR.value;
    c.PutBuilder(BasicType, basic);
  }

  /** `getOclResources(name)`: the stored text under the service's state key, decoded;
      without a storage, or when the stored text does not parse, the record is the default
      one. A missing key is taken to read like text that does not parse. */
  function ReadRecord(storage: Storage, decode: string -> Option<OclResources>, defaultRecord: OclResources, name: string): (r: OclResources)
    ensures storage.None? ==> r == defaultRecord
    ensures storage.Some? && (name, PluginName, StateKey) in storage.value
            && decode(storage.value[(name, PluginName, StateKey)]).Some? ==>
      r == decode(storage.value[(name, PluginName, StateKey)]).value
    ensures storage.Some? && (name, PluginName, StateKey) in storage.value
            && decode(storage.value[(name, PluginName, StateKey)]).None? ==>
      r == defaultRecord
    ensures storage.Some? && (name, PluginName, StateKey) !in storage.value ==> r == defaultRecord
    ensures r != defaultRecord ==>
      && storage.Some? && (name, PluginName, StateKey) in storage.value
      && decode(storage.value[(name, PluginName, StateKey)]) == Some(r)
  {
    match storage
    case None => defaultRecord
    case Some(m) =>
      if (name, PluginName, StateKey) !in m then defaultRecord
      else match decode(m[(name, PluginName, StateKey)])
        case None => defaultRecord
        case Some(r) => r
  }

  /** `storeOclResources(name, record)`: writes the serialised record under the service's
      state key; without a storage nothing is written. */
  function WriteRecord(storage: Storage, encode: OclResources -> string, name: string, record: OclResources): (r: Storage)
    ensures r.Some? <==> storage.Some?
  {
    match storage
    case None => None
    case Some(m) => Some(m[(name, PluginName, StateKey) := encode(record)])
  }

  /** Reading a service's record after writing it gives the written record when there is
      a storage and the default record when there is none; the records of other services
      are not affected. */
  lemma ReadAfterWrite(
    storage: Storage, encode: OclResources -> string, decode: string -> Option<OclResources>,
    defaultRecord: OclResources, name: string, other: string, record: OclResources)
    requires RoundTrips(encode, decode)
    ensures ReadRecord(WriteRecord(storage, encode, name, record), decode, defaultRecord, name)
            == if storage.Some? then record else defaultRecord
    ensures other != name ==>
      ReadRecord(WriteRecord(storage, encode, name, record), decode, defaultRecord, other)
      == ReadRecord(storage, decode, defaultRecord, other)
  {
    if storage.Some? {
      assert decode(encode(record)) == Some(record);
    }
  }

  function NotRegistered(name: string): Error
  {
    IllegalArgument("Service:" + name + "not registered.")
  }

  class HuaweiCloudPlugin {
    var managed: map<string, Ocl>
    var storage: Storage
    const defaultRecord: OclResources
    const encode: OclResources -> string
    const decode: string -> Option<OclResources>

    ghost predicate Valid()
    {
      RoundTrips(encode, decode)
    }

    /** A plugin with an empty registry over the given storage. */
    constructor (storage: Storage, defaultRecord: OclResources,
                 encode: OclResources -> string, decode: string -> Option<OclResources>)
      requires RoundTrips(encode, decode)
      ensures Valid()
      ensures managed == map[] && this.storage == storage
      ensures this.defaultRecord == defaultRecord && this.encode == encode && this.decode == decode
    {
      managed := map[];
      this.storage := storage;
      this.defaultRecord := defaultRecord;
      this.encode := encode;
      this.decode := decode;
    }

    function GetOclResources(name: string): OclResources
      reads this
    {
      ReadRecord(storage, decode, defaultRecord, name)
    }

    method StoreOclResources(name: string, record: OclResources)
      modifies this
      ensures storage == WriteRecord(old(storage), encode, name, record)
      ensures managed == old(managed)
    {
      storage := WriteRecord(storage, encode, name, record);
    }

    /** `registerManagedService(ocl)`. A null descriptor is rejected with nothing changed.
        Otherwise the registry maps the descriptor's name to it; then the persisted record
        is read, a null state fails on the `success` comparison, and any other state,
        `success` included, is overwritten with `registered` and persisted. */
    method Register(ocl: Option<Ocl>) returns (out: Outcome)
      requires Valid()
      modifies this
      ensures ocl.None? ==> out == Fail(IllegalArgument("registering invalid ocl. ocl = null"))
      ensures ocl.None? ==> managed == old(managed) && storage == old(storage)
      ensures ocl.Some? ==> managed == old(managed)[ocl.value.name := ocl.value]
      ensures ocl.Some? && old(GetOclResources(ocl.value.name)).state.None? ==>
        out == Fail(NullReference) && storage == old(storage)
      ensures ocl.Some? && old(GetOclResources(ocl.value.name)).state.Some? ==>
        && out == Pass
        && storage == WriteRecord(old(storage), encode, ocl.value.name,
                                  old(GetOclResources(ocl.value.name)).(state := Some(Registered)))
        && (storage.Some? ==> GetOclResources(ocl.value.name).state == Some(Registered))
    {
      if ocl.None? {
        return Fail(IllegalArgument("registering invalid ocl. ocl = null"));
      }
      var name := ocl.value.name;
      managed := managed[name := ocl.value];
      var record := GetOclResources(name);
      if record.state.None? {
        return Fail(NullReference);
      }
      record := record.(state := Some(Registered));
      ReadAfterWrite(storage, encode, decode, defaultRecord, name, name, record);
      StoreOclResources(name, record);
      out := Pass;
    }

    /** `updateManagedService(name, ocl)`: a null descriptor is rejected; otherwise the
        name is mapped to the descriptor, registered before or not, and the storage is not
        touched. */
    method Update(name: string, ocl: Option<Ocl>) returns (out: Outcome)
      modifies this
      ensures storage == old(storage)
      ensures ocl.None? ==> out == Fail(IllegalArgument("Invalid ocl. ocl = null")) && managed == old(managed)
      ensures ocl.Some? ==> out == Pass && managed == old(managed)[name := ocl.value]
    {
      if ocl.None? {
        return Fail(IllegalArgument("Invalid ocl. ocl = null"));
      }
      managed := managed[name := ocl.value];
      out := Pass;
    }

    /** `startManagedService(name)`. An unregistered name is rejected. A persisted record
        in state `success` ends the call with nothing built; a null state fails on that
        comparison. Otherwise a fresh context gets the service and plugin names, an env
        builder under "env" and a resource builder under "basic", both bound to a copy of
        the registered descriptor, and the env builder is built strictly before the
        resource builder. A `create` that throws (an `Err` from `creates`) is not caught:
        the call fails with that error, and when it is the env builder's, the resource
        builder is never built. Start changes neither the registry nor the storage. */
    method Start(name: string, creates: AtomBuilder -> Result<bool>)
        returns (out: Outcome, ctx: BuilderContext?, built: seq<AtomBuilder>)
      ensures name !in managed ==> out == Fail(NotRegistered(name)) && ctx == null && built == []
      ensures name in managed && GetOclResources(name).state.None? ==>
        out == Fail(NullReference) && ctx == null && built == []
      ensures name in managed && GetOclResources(name).state == Some(Success) ==>
        out == Pass && ctx == null && built == []
      ensures ctx != null <==>
        name in managed && GetOclResources(name).state.Some? && GetOclResources(name).state != Some(Success)
      ensures ctx != null ==>
        && ctx.serviceName == Some(name) && ctx.pluginName == Some(PluginName)
        && ctx.builderMap.Keys == {EnvType, BasicType}
        && ctx.builderMap[EnvType].kind == EnvBuilder && ctx.builderMap[BasicType].kind == ResourceBuilder
        && ctx.builderMap[EnvType].ocl == managed[name] && ctx.builderMap[BasicType].ocl == managed[name]
      ensures ctx != null && creates(ctx.builderMap[EnvType]).Err? ==>
        out == Fail(creates(ctx.builderMap[EnvType]).error) && built == [ctx.builderMap[EnvType]]
      ensures ctx != null && creates(ctx.builderMap[EnvType]).Ok? ==>
        && built == [ctx.builderMap[EnvType], ctx.builderMap[BasicType]]
        && out == (if creates(ctx.builderMap[BasicType]).Err?
                   then Fail(creates(ctx.builderMap[BasicType]).error) else Pass)
    {
      ctx, built := null, [];
      if name !in managed {
        return Fail(NotRegistered(name)), ctx, built;
      }
      var ocl := managed[name];
      var record := GetOclResources(name);
      if record.state.None? {
        return Fail(NullReference), ctx, built;
      }
      if record.state == Some(Success) {
        return Pass, ctx, built;
      }
      var c, env, basic := StartContext(name, ocl, defaultRecord);
      SmallTreeTraces(env, env.Tree, env.Tree, creates);
      SmallTreeTraces(basic, basic.Tree, basic.Tree, creates);
      var envR, envBuilt := env.Build(creates);
      if envR.Err? {
        return Fail(envR.error), c, envBuilt;
      }
      var basicR, basicBuilt := basic.Build(creates);
      ctx, built := c, envBuilt + basicBuilt;
      out := if basicR.Err? then Fail(basicR.error) else Pass;
    }

    /** `stopManagedService(name)`. An unregistered name is rejected. Otherwise fresh env
        and resource builders over a copy of the descriptor are rolled back, env first,
        whatever either reports or throws; the fresh context's record is marked `stopped`, and what
        is persisted is a new default record, not that one. */
    method Stop(name: string, destroys: AtomBuilder -> Result<bool>)
        returns (out: Outcome, ctx: BuilderContext?, destroyed: seq<AtomBuilder>)
      requires Valid()
      modifies this
      ensures managed == old(managed)
      ensures name !in managed ==>
        out == Fail(NotRegistered(name)) && ctx == null && destroyed == [] && storage == old(storage)
      ensures name in managed ==>
        && out == Pass && ctx != null
        && ctx.oclResources.state == Some(Stopped) && ctx.builderMap == map[]
        && |destroyed| == 2
        && destroyed[0].kind == EnvBuilder && destroyed[1].kind == ResourceBuilder
        && destroyed[0].ocl == managed[name] && destroyed[1].ocl == managed[name]
        && storage == WriteRecord(old(storage), encode, name, defaultRecord)
        && (storage.Some? ==> GetOclResources(name) == defaultRecord)
    {
      ctx, destroyed := null, [];
      if name !in managed {
        return Fail(NotRegistered(name)), ctx, destroyed;
      }
      var c := new BuilderContext(defaultRecord);
      var ocl := managed[name];
      var envR := CreateBuilder(EnvType, ocl);
      assert envR.Ok?;
      var env := envR.value;
      var basicR := CreateBuilder(BasicType, ocl);
      assert basicR.Ok?;
      var basic := basicR.value;
      SmallTreeTraces(env, env.Tree, env.Tree, destroys);
      SmallTreeTraces(basic, basic.Tree, basic.Tree, destroys);
      var envOk, envDestroyed := env.Rollback(destroys);
      var basicOk, basicDestroyed := basic.Rollback(destroys);
      c.SetState(Stopped);
      ReadAfterWrite(storage, encode, decode, defaultRecord, name, name, defaultRecord);
      StoreOclResources(name, defaultRecord);
      ctx, destroyed := c, envDestroyed + basicDestroyed;
      out := Pass;
    }

    /** `unregisterManagedService(name)`: an unregistered name is rejected; otherwise
        exactly that entry leaves the registry. The storage is not touched. */
    method Unregister(name: string) returns (out: Outcome)
      modifies this
      ensures storage == old(storage)
      ensures name !in old(managed) ==> out == Fail(NotRegistered(name)) && managed == old(managed)
      ensures name in old(managed) ==> out == Pass && managed == old(managed) - {name}
    {
      if name !in managed {
        return Fail(NotRegistered(name));
      }
      managed := managed - {name};
      out := Pass;
    }
  }
}
