/** The runtime information a builder tree shares while it builds or rolls back: the
    context is itself a map from a builder's name to that builder's string outputs, and it
    carries the provisioned-resource record, the service and plugin names and a registry
    of builders by type. */
module Context {
  import opened Common
  import opened Descriptor
  import opened Composite

  class BuilderContext {
    /** The entries of the hash map the context extends. */
    var outputs: map<string, map<string, string>>
    var oclResources: OclResources
    var serviceName: Option<string>
    var pluginName: Option<string>
    var builderMap: map<string, AtomBuilder>

    /** A fresh context: no builder outputs, no names, an empty builder registry and its
        own copy of the default record. */
    constructor (defaultRecord: OclResources)
      ensures forall name :: Get(name).None?
      ensures builderMap == map[]
      ensures oclResources == defaultRecord
      ensures serviceName.None? && pluginName.None?
    {
      outputs := map[];
      oclResources := defaultRecord;
      serviceName := None;
      pluginName := None;
      builderMap := map[];
    }

    /** `get(name)`: the outputs recorded under `name`, or `None` (Java `null`). */
    function Get(name: string): (r: Option<map<string, string>>)
      reads this
      ensures r.Some? <==> name in outputs
      ensures r.Some? ==> r.value == outputs[name]
    {
      if name in outputs then Some(outputs[name]) else None
    }

    /** `put(name, outs)`: records `outs` under `name`, replacing what was there; every
        other name keeps its outputs. */
    method Put(name: string, outs: map<string, string>)
      modifies this
      ensures Get(name) == Some(outs)
      ensures forall other :: other != name ==> Get(other) == old(Get(other))
      ensures oclResources == old(oclResources) && builderMap == old(builderMap)
      ensures serviceName == old(serviceName) && pluginName == old(pluginName)
    {
      outputs := outputs[name := outs];
    }

    /** `getOclResources().setState(state)`: the context's record is changed in place;
        every other part of the context is unchanged. */
    method SetState(state: string)
      modifies this
      ensures oclResources.state == Some(state)
      ensures outputs == old(outputs) && builderMap == old(builderMap)
      ensures serviceName == old(serviceName) && pluginName == old(pluginName)
    {
      oclResources := oclResources.(state := Some(state));
    }

    /** `setOclResources`, also the effect of an executor updating the record in place. */
    method SetOclResources(record: OclResources)
      modifies this
      ensures oclResources == record
      ensures outputs == old(outputs) && builderMap == old(builderMap)
      ensures serviceName == old(serviceName) && pluginName == old(pluginName)
    {
      oclResources := record;
    }

    method SetServiceName(name: string)
      modifies this
      ensures serviceName == Some(name)
      ensures outputs == old(outputs) && builderMap == old(builderMap)
      ensures oclResources == old(oclResources) && pluginName == old(pluginName)
    {
      serviceName := Some(name);
    }

    method SetPluginName(name: string)
      modifies this
      ensures pluginName == Some(name)
      ensures outputs == old(outputs) && builderMap == old(builderMap)
      ensures oclResources == old(oclResources) && serviceName == old(serviceName)
    {
      pluginName := Some(name);
    }

    /** `getBuilderMap().put(builderType, builder)`. */
    method PutBuilder(builderType: string, builder: AtomBuilder)
      modifies this
      ensures builderMap == old(builderMap)[builderType := builder]
      ensures outputs == old(outputs) && oclResources == old(oclResources)
      ensures serviceName == old(serviceName) && pluginName == old(pluginName)
    {
      builderMap := builderMap[builderType := builder];
    }

    /** The generated `equals`: the map entries and the modelled fields agree. The
        `environment` and `storage` fields, which `equals` also compares, are not modelled. */
    predicate Equals(other: BuilderContext)
      reads this, other
    {
      && outputs == other.outputs
      && oclResources == other.oclResources
      && serviceName == other.serviceName
      && pluginName == other.pluginName
      && builderMap == other.builderMap
    }
  }

  /** Equal contexts answer every output lookup alike, and equality is not decided by the
      map entries alone: contexts that differ in the record or a name are unequal even
      when their outputs agree. */
  lemma EqualsCoversEntriesAndFields(a: BuilderContext, b: BuilderContext)
    ensures a.Equals(b) ==> forall name :: a.Get(name) == b.Get(name)
    ensures a.Equals(b) ==> b.Equals(a)
    ensures (exists name :: a.Get(name) != b.Get(name)) ==> !a.Equals(b)
    ensures a.outputs == b.outputs && a.oclResources != b.oclResources ==> !a.Equals(b)
    ensures a.outputs == b.outputs && a.serviceName != b.serviceName ==> !a.Equals(b)
  {
  }
}
