# Huawei-cloud orchestrator plugin of xpanse, modelled in Dafny

This project models the control layer of xpanse's Huawei-cloud orchestrator plugin and proves properties of that model:

- the plugin keeps a registry of service descriptors ("OCL") by managed-service name, and a persisted provisioned-resource record whose `state` is `registered`, `success` or `stopped`;
- the builder context carries the outputs each builder publishes, the resource record, the service and plugin names and a registry of builders by type;
- the builder factory turns a type string into a small tree of builders;
- the Huawei resource builder checks its env dependency, stamps image artifact ids and drives the Terraform executor through init, plan and apply (or destroy);
- the builder composite (`AtomBuilder`) builds and rolls back a tree of builders;
- the descriptor-to-HCL translator (`Ocl2Hcl`) is modelled as the structure of the blocks it emits: rule blocks expanded from port lists, path references resolved to element names, subnet gateways derived from the CIDR, and failure on a descriptor without sections;
- the file-free middle of `OpenApiUtil.updateServiceApi` collects the required names and one property map per deploy variable, parses validator strings and renders the `properties` and `required` parts of an OpenAPI 3.0.1 Schema Object.

Files (one module each):

- `common.dfy`: `Option`, `Result`, `Outcome` and the Java exceptions as values.
- `text.dfy`: the Java and commons-lang string operations the code relies on (`Integer.parseInt`, `Integer.toString`, `split`, `trim`, `StringUtils.contains`, `isBlank`).
- `descriptor.dfy`: the descriptor and the resource record as plain datatypes.
- `composite.dfy` and `composite_scenarios.dfy`: the `AtomBuilder` class and the scenarios of its unit test.
- `context.dfy`: the `BuilderContext` class.
- `factory.dfy`: `createBuilder`.
- `resource_builder.dfy`: the executor object, the artifact-id loop over an array, and `create` and `destroy`.
- `plugin.dfy`: the `HuaweiCloudPlugin` class with its registry and storage.
- `ocl2hcl.dfy` and `ocl2hcl_fixture.dfy`: the translator and the descriptor of its unit test.
- `openapi.dfy`: the schema builder.

`AtomBuilder.java` is not part of this model. Its `build` and `rollback` are modelled as follows:

- `build` creates the children first, in order, then the node itself. A child's `false` does not stop it; the call returns the node's own `create` result.
- A `create` that throws `BuilderException` ends `build` at once, and the exception leaves the call.
- `rollback` destroys the node first, then its children from the last to the first. A destroy step that returns `false` or throws is recorded as a failure and the rollback goes on.
- `AtomBuilderTest` checks only how often each mocked step is called, so the order of the steps is not pinned by it.

The model follows the code of the plugin where a reader might expect otherwise:

- `registerManagedService` overwrites a `success` state with `registered`; the `success` check only logs.
- `startManagedService` persists nothing itself.
- `stopManagedService` persists a fresh default record, not the context's record it has just marked `stopped`.

The default state of a new `OclResources` is not part of this model. So `registerManagedService` and `startManagedService` accept a record whose state is null, and calling `equals` on that null state is modelled as a `NullReference` failure. The default record is a parameter of the plugin's constructor.

## Model

| member | source | states |
|---|---|---|
| Text.ParseIntRoundTrip | modules/orchestrator/src/main/java/org/eclipse/xpanse/orchestrator/utils/OpenApiUtil.java:63-64 | every 32-bit `int` rendered by `Integer.toString` parses back to itself |
| Text.CanonicalReparses | modules/orchestrator/src/main/java/org/eclipse/xpanse/orchestrator/utils/OpenApiUtil.java:63-64 | the canonical text stored for an accepted value parses to the same value |
| Text.SplitJoin | modules/orchestrator/src/main/java/org/eclipse/xpanse/orchestrator/utils/OpenApiUtil.java:58 | joining the pieces of a split with the separator gives back the text |
| Text.JoinSplit | modules/orchestrator/src/main/java/org/eclipse/xpanse/orchestrator/utils/OpenApiUtil.java:58 | splitting a join of separator-free pieces gives back the pieces |
| Text.JavaSplit | modules/orchestrator/src/main/java/org/eclipse/xpanse/orchestrator/utils/OpenApiUtil.java:58 | a text without the separator splits into itself; no piece contains the separator; a split text ends in a non-empty piece; and the pieces joined with the separator are a prefix of the text followed only by separators |
| Text.JoinEmptyTail | modules/orchestrator/src/main/java/org/eclipse/xpanse/orchestrator/utils/OpenApiUtil.java:58 | dropping trailing empty pieces leaves a join that is a prefix of the full join, followed only by separators |
| Text.SplitFirst | modules/orchestrator/src/main/java/org/eclipse/xpanse/orchestrator/utils/OpenApiUtil.java:60 | `split("=", 2)` gives the text alone exactly when it has no `=`; otherwise key and rest around the first `=` |
| Text.DropTrailingEmpty | modules/orchestrator/src/main/java/org/eclipse/xpanse/orchestrator/utils/OpenApiUtil.java:58 | the kept pieces are a prefix, the last kept one is non-empty and only empty pieces are dropped |
| Text.IndexOf | plugins/huaweicloud/src/test/java/org/eclipse/xpanse/orchestrator/plugin/huaweicloud/builders/terraform/Ocl2HclTest.java:43 | the index found is the first occurrence; absence means the character does not occur |
| Text.Trim | plugins/huaweicloud/src/test/java/org/eclipse/xpanse/orchestrator/plugin/huaweicloud/builders/terraform/Ocl2HclTest.java:43 | the trimmed text is no longer and starts and ends with a non-blank character |
| Text.TrimKeepsInfix | plugins/huaweicloud/src/test/java/org/eclipse/xpanse/orchestrator/plugin/huaweicloud/builders/terraform/Ocl2HclTest.java:43 | the trimmed text is a contiguous slice of the text with only blanks before and after it |
| Composite.KindName | plugins/huaweicloud/src/main/java/org/eclipse/xpanse/orchestrator/plugin/huaweicloud/builders/HuaweiResourceBuilder.java:32-34 | the resource builder is named `Huawei-Cloud-resource-Builder` and the env builder `Huawei-Cloud-env-Builder`; the image builder's name is unknown |
| Composite.AtomBuilder.Name | plugins/huaweicloud/src/test/java/org/eclipse/xpanse/orchestrator/plugin/huaweicloud/BuilderFactoryTest.java:53 | `name()` is known exactly for the env and resource builders |
| Composite.AtomBuilder.constructor | plugins/huaweicloud/src/test/java/org/eclipse/xpanse/orchestrator/plugin/huaweicloud/AtomBuilderTest.java:52-54 | a new builder is bound to its descriptor and has no sub-builders |
| Composite.AtomBuilder.AddSubBuilder | plugins/huaweicloud/src/test/java/org/eclipse/xpanse/orchestrator/plugin/huaweicloud/AtomBuilderTest.java:108-110 | `addSubBuilder` appends the child as the last sub-builder and keeps the tree acyclic |
| Composite.AtomBuilder.Build | plugins/huaweicloud/src/test/java/org/eclipse/xpanse/orchestrator/plugin/huaweicloud/AtomBuilderTest.java:61-88 | build runs the create steps in build-trace order up to and including the first that throws and returns that error; when none throws it runs all of them and returns the node's own create result, whatever the children return |
| Composite.AtomBuilder.Rollback | plugins/huaweicloud/src/test/java/org/eclipse/xpanse/orchestrator/plugin/huaweicloud/AtomBuilderTest.java:90-138 | rollback runs every destroy step in rollback-trace order, throwing or not, and succeeds exactly when every destroy step returns `true` without throwing |
| Composite.AtomBuilder.TreeIsDistinct | plugins/huaweicloud/src/test/java/org/eclipse/xpanse/orchestrator/plugin/huaweicloud/AtomBuilderTest.java:92-93 | a valid tree never holds the same builder twice |
| Composite.BuildTraceIsNodes | plugins/huaweicloud/src/test/java/org/eclipse/xpanse/orchestrator/plugin/huaweicloud/AtomBuilderTest.java:61-73 | a build runs the create step of exactly the builders of the tree, as often as they occur |
| Composite.RollbackTraceIsNodes | plugins/huaweicloud/src/test/java/org/eclipse/xpanse/orchestrator/plugin/huaweicloud/AtomBuilderTest.java:104-123 | a rollback runs the destroy step of exactly the builders of the tree, whatever the steps return |
| Composite.BuildCreatesEachOnce | plugins/huaweicloud/src/test/java/org/eclipse/xpanse/orchestrator/plugin/huaweicloud/AtomBuilderTest.java:69-72 | in a tree without repeats, each builder is created exactly once and nothing else is |
| Composite.RollbackDestroysEachOnce | plugins/huaweicloud/src/test/java/org/eclipse/xpanse/orchestrator/plugin/huaweicloud/AtomBuilderTest.java:118-122 | in a tree without repeats, each builder is destroyed exactly once, even after failures |
| Composite.RollbackOkIffAllDestroyed | plugins/huaweicloud/src/test/java/org/eclipse/xpanse/orchestrator/plugin/huaweicloud/AtomBuilderTest.java:125-138 | rollback reports success if and only if every builder's destroy step returned `true` without throwing |
| Composite.CreatesRun | plugins/huaweicloud/src/main/java/org/eclipse/xpanse/orchestrator/plugin/huaweicloud/builders/HuaweiResourceBuilder.java:36-79 | the create steps that run form a non-empty prefix of the trace, every one before the last returns, and some step of the trace throws exactly when the last one run throws |
| Composite.CreatesRunAppend | plugins/huaweicloud/src/main/java/org/eclipse/xpanse/orchestrator/plugin/huaweicloud/builders/HuaweiResourceBuilder.java:36-79 | a throw in the first part of a trace ends the run there; otherwise the run continues into the second part |
| Composite.ThrowSkipsParent | plugins/huaweicloud/src/main/java/org/eclipse/xpanse/orchestrator/plugin/huaweicloud/builders/HuaweiResourceBuilder.java:36-79 | when a create step below a node throws, the node's own create step never runs |
| Composite.ParentOrder | plugins/huaweicloud/src/test/java/org/eclipse/xpanse/orchestrator/plugin/huaweicloud/AtomBuilderTest.java:90-102 | a node is created after everything below it and destroyed before everything below it |
| Composite.SmallTreeTraces | plugins/huaweicloud/src/test/java/org/eclipse/xpanse/orchestrator/plugin/huaweicloud/AtomBuilderTest.java:90-102 | the build and rollback traces and results of a leaf and of nodes with one or two children |
| Composite.DistinctOccursOnce | plugins/huaweicloud/src/test/java/org/eclipse/xpanse/orchestrator/plugin/huaweicloud/AtomBuilderTest.java:118-122 | an element of a repeat-free sequence occurs exactly once |
| CompositeScenarios.ListTraces | plugins/huaweicloud/src/test/java/org/eclipse/xpanse/orchestrator/plugin/huaweicloud/AtomBuilderTest.java:61-73 | resource over image builds the image first, and each builder once |
| CompositeScenarios.ChainTraces | plugins/huaweicloud/src/test/java/org/eclipse/xpanse/orchestrator/plugin/huaweicloud/AtomBuilderTest.java:90-102 | a three-level chain is rolled back top down, and its result is the conjunction of the three destroy steps |
| CompositeScenarios.TreeTraces | plugins/huaweicloud/src/test/java/org/eclipse/xpanse/orchestrator/plugin/huaweicloud/AtomBuilderTest.java:104-123 | the two leaves are rolled back later leaf first, each of the lower three exactly once |
| CompositeScenarios.MakeList | plugins/huaweicloud/src/test/java/org/eclipse/xpanse/orchestrator/plugin/huaweicloud/AtomBuilderTest.java:63 | the test's resource-over-image tree |
| CompositeScenarios.MakeChain | plugins/huaweicloud/src/test/java/org/eclipse/xpanse/orchestrator/plugin/huaweicloud/AtomBuilderTest.java:92-93 | the test's resource-over-image-over-env chain |
| CompositeScenarios.MakePair | plugins/huaweicloud/src/test/java/org/eclipse/xpanse/orchestrator/plugin/huaweicloud/AtomBuilderTest.java:108-109 | an image builder with two env builders, in order |
| CompositeScenarios.MakeTree | plugins/huaweicloud/src/test/java/org/eclipse/xpanse/orchestrator/plugin/huaweicloud/AtomBuilderTest.java:108-110 | the test's resource-over-image-over-two-envs tree |
| CompositeScenarios.BuilderList | plugins/huaweicloud/src/test/java/org/eclipse/xpanse/orchestrator/plugin/huaweicloud/AtomBuilderTest.java:61-73 | with every create step succeeding, both builds return true and each builder is created once |
| CompositeScenarios.BuilderListFailed | plugins/huaweicloud/src/test/java/org/eclipse/xpanse/orchestrator/plugin/huaweicloud/AtomBuilderTest.java:76-88 | with the image's create step returning `false`, the env and resource builds still return `true`, and the image's create step runs once |
| CompositeScenarios.BuilderListRollback | plugins/huaweicloud/src/test/java/org/eclipse/xpanse/orchestrator/plugin/huaweicloud/AtomBuilderTest.java:90-102 | the chain rollback succeeds and destroys the env builder exactly once |
| CompositeScenarios.BuilderTreeRollback | plugins/huaweicloud/src/test/java/org/eclipse/xpanse/orchestrator/plugin/huaweicloud/AtomBuilderTest.java:104-123 | the tree rollback succeeds and destroys both envs and the image builder exactly once |
| CompositeScenarios.BuilderListRollbackFailed | plugins/huaweicloud/src/test/java/org/eclipse/xpanse/orchestrator/plugin/huaweicloud/AtomBuilderTest.java:125-138 | with the env destroy failing, the rollback fails yet the env builder is still destroyed exactly once |
| Context.BuilderContext.constructor | plugins/huaweicloud/src/main/java/org/eclipse/xpanse/orchestrator/plugin/huaweicloud/BuilderContext.java:22-32 | a fresh context has no builder outputs, no names, an empty builder registry and its own default record |
| Context.BuilderContext.Get | plugins/huaweicloud/src/main/java/org/eclipse/xpanse/orchestrator/plugin/huaweicloud/BuilderContext.java:22 | a lookup finds outputs exactly for the builder names that were put |
| Context.BuilderContext.Put | plugins/huaweicloud/src/main/java/org/eclipse/xpanse/orchestrator/plugin/huaweicloud/BuilderContext.java:22 | `put` replaces the outputs of one name and changes nothing else |
| Context.BuilderContext.SetState | plugins/huaweicloud/src/main/java/org/eclipse/xpanse/orchestrator/plugin/huaweicloud/BuilderContext.java:26 | the record's state changes in place; every other part of the context stays |
| Context.BuilderContext.SetOclResources | plugins/huaweicloud/src/main/java/org/eclipse/xpanse/orchestrator/plugin/huaweicloud/BuilderContext.java:26 | the record is replaced; every other part of the context stays |
| Context.BuilderContext.SetServiceName | plugins/huaweicloud/src/main/java/org/eclipse/xpanse/orchestrator/plugin/huaweicloud/BuilderContext.java:28 | only the service name changes |
| Context.BuilderContext.SetPluginName | plugins/huaweicloud/src/main/java/org/eclipse/xpanse/orchestrator/plugin/huaweicloud/BuilderContext.java:30 | only the plugin name changes |
| Context.BuilderContext.PutBuilder | plugins/huaweicloud/src/main/java/org/eclipse/xpanse/orchestrator/plugin/huaweicloud/BuilderContext.java:32 | the builder registry gains or replaces one entry; nothing else changes |
| Context.EqualsCoversEntriesAndFields | plugins/huaweicloud/src/main/java/org/eclipse/xpanse/orchestrator/plugin/huaweicloud/BuilderContext.java:20-22 | equal contexts agree on every lookup, equality is symmetric, and contexts whose outputs agree but whose record or name differ are unequal |
| Factory.Kinds | plugins/huaweicloud/src/main/java/org/eclipse/xpanse/orchestrator/plugin/huaweicloud/BuilderFactory.java:34-46 | the blueprint of a tree has its root's kind and one child blueprint per child |
| Factory.Plan | plugins/huaweicloud/src/main/java/org/eclipse/xpanse/orchestrator/plugin/huaweicloud/BuilderFactory.java:34-49 | exactly the three type constants succeed; any other type is the `IllegalStateException` |
| Factory.PlanBranches | plugins/huaweicloud/src/main/java/org/eclipse/xpanse/orchestrator/plugin/huaweicloud/BuilderFactory.java:20-46 | the constants are distinct; `env` plans a lone env builder, `basic` a lone resource builder, `basic_deprecated` a resource builder over one image builder |
| Factory.CreateBuilder | plugins/huaweicloud/src/main/java/org/eclipse/xpanse/orchestrator/plugin/huaweicloud/BuilderFactory.java:34-49 | a fresh, valid builder tree of the planned shape, every builder bound to the descriptor, or the error; never null |
| HuaweiResource.TerraformExecutor.constructor | plugins/huaweicloud/src/main/java/org/eclipse/xpanse/orchestrator/plugin/huaweicloud/builders/HuaweiResourceBuilder.java:61 | the executor holds the descriptor and the env outputs it was made with, and has run nothing |
| HuaweiResource.TerraformExecutor.Run | plugins/huaweicloud/src/main/java/org/eclipse/xpanse/orchestrator/plugin/huaweicloud/builders/HuaweiResourceBuilder.java:66-74 | a step reports the engine's answer and is logged after the earlier ones |
| HuaweiResource.FirstUsableId | plugins/huaweicloud/src/main/java/org/eclipse/xpanse/orchestrator/plugin/huaweicloud/builders/HuaweiResourceBuilder.java:52-57 | the id found is never blank |
| HuaweiResource.FirstUsableIdAt | plugins/huaweicloud/src/main/java/org/eclipse/xpanse/orchestrator/plugin/huaweicloud/builders/HuaweiResourceBuilder.java:52-57 | the id found is the one of the first base image with a non-blank id; none is found when all are blank |
| HuaweiResource.StampProperties | plugins/huaweicloud/src/main/java/org/eclipse/xpanse/orchestrator/plugin/huaweicloud/builders/HuaweiResourceBuilder.java:50-59 | stamping keeps names, gives every artifact the same first usable id, leaves artifacts alone when no id is usable, and is idempotent |
| HuaweiResource.StampArtifacts | plugins/huaweicloud/src/main/java/org/eclipse/xpanse/orchestrator/plugin/huaweicloud/builders/HuaweiResourceBuilder.java:50-59 | the nested loop over the artifact array stamps every artifact in place |
| HuaweiResource.StampedImage | plugins/huaweicloud/src/main/java/org/eclipse/xpanse/orchestrator/plugin/huaweicloud/builders/HuaweiResourceBuilder.java:50-59 | the stamped image keeps the base list and stamps every artifact |
| HuaweiResource.CreateStopsAtFirstFailure | plugins/huaweicloud/src/main/java/org/eclipse/xpanse/orchestrator/plugin/huaweicloud/builders/HuaweiResourceBuilder.java:66-78 | create runs init, plan and apply in order up to the first failure, never a step after it, and succeeds with `true` exactly when all three succeed |
| HuaweiResource.Create | plugins/huaweicloud/src/main/java/org/eclipse/xpanse/orchestrator/plugin/huaweicloud/builders/HuaweiResourceBuilder.java:36-79 | a null context or missing env outputs fail before any executor exists; otherwise the artifacts are stamped, the steps run as planned, and only a full success updates the context's record |
| HuaweiResource.DestroyOutcomes | plugins/huaweicloud/src/main/java/org/eclipse/xpanse/orchestrator/plugin/huaweicloud/builders/HuaweiResourceBuilder.java:90-102 | destroy fails exactly when init or plan fails, answers `false` exactly when only the destroy step fails, and `true` only when all succeed |
| HuaweiResource.DestroyResources | plugins/huaweicloud/src/main/java/org/eclipse/xpanse/orchestrator/plugin/huaweicloud/builders/HuaweiResourceBuilder.java:81-103 | a null context fails on the env lookup; otherwise the executor gets the env outputs and the steps run as planned, the context untouched |
| Plugin.StartContext | plugins/huaweicloud/src/main/java/org/eclipse/xpanse/orchestrator/plugin/huaweicloud/HuaweiCloudOrchestratorPlugin.java:88-100 | the start context carries the service and plugin names and fresh env and resource builders under `env` and `basic` |
| Plugin.WriteRecord | plugins/huaweicloud/src/main/java/org/eclipse/xpanse/orchestrator/plugin/huaweicloud/HuaweiCloudOrchestratorPlugin.java:160-165 | a write is skipped exactly when there is no storage |
| Plugin.ReadAfterWrite | plugins/huaweicloud/src/main/java/org/eclipse/xpanse/orchestrator/plugin/huaweicloud/HuaweiCloudOrchestratorPlugin.java:151-184 | reading a record after writing it gives the written record (the default one without storage), and other services' records are unaffected |
| Plugin.ReadRecord | plugins/huaweicloud/src/main/java/org/eclipse/xpanse/orchestrator/plugin/huaweicloud/HuaweiCloudOrchestratorPlugin.java:168-184 | with storage, text under the service's `state` key that decodes is read as its decoding; text that does not decode, a missing key or no storage reads as the default record |
| Plugin.HuaweiCloudPlugin.constructor | plugins/huaweicloud/src/main/java/org/eclipse/xpanse/orchestrator/plugin/huaweicloud/HuaweiCloudOrchestratorPlugin.java:40-45 | a plugin starts with an empty registry over the given storage |
| Plugin.HuaweiCloudPlugin.StoreOclResources | plugins/huaweicloud/src/main/java/org/eclipse/xpanse/orchestrator/plugin/huaweicloud/HuaweiCloudOrchestratorPlugin.java:151-166 | the serialised record is written under the service's state key; the registry is unchanged |
| Plugin.HuaweiCloudPlugin.Register | plugins/huaweicloud/src/main/java/org/eclipse/xpanse/orchestrator/plugin/huaweicloud/HuaweiCloudOrchestratorPlugin.java:47-60 | a null descriptor is rejected with nothing changed; otherwise the name is mapped to the descriptor and a non-null state, `success` included, is persisted as `registered` |
| Plugin.HuaweiCloudPlugin.Update | plugins/huaweicloud/src/main/java/org/eclipse/xpanse/orchestrator/plugin/huaweicloud/HuaweiCloudOrchestratorPlugin.java:62-69 | a null descriptor is rejected; otherwise the name is mapped to it without a registration check, storage untouched |
| Plugin.HuaweiCloudPlugin.Start | plugins/huaweicloud/src/main/java/org/eclipse/xpanse/orchestrator/plugin/huaweicloud/HuaweiCloudOrchestratorPlugin.java:71-105 | an unregistered name is rejected; a `success` record ends the call with nothing built; otherwise env is built before basic, both over a copy of the registered descriptor; a throw while building env fails the call with that error and basic is never built; a throw while building basic fails the call with its error |
| Plugin.HuaweiCloudPlugin.Stop | plugins/huaweicloud/src/main/java/org/eclipse/xpanse/orchestrator/plugin/huaweicloud/HuaweiCloudOrchestratorPlugin.java:107-130 | an unregistered name is rejected; otherwise env then basic are rolled back whatever they report or throw, the context's record is marked `stopped`, and a fresh default record is persisted |
| Plugin.HuaweiCloudPlugin.Unregister | plugins/huaweicloud/src/main/java/org/eclipse/xpanse/orchestrator/plugin/huaweicloud/HuaweiCloudOrchestratorPlugin.java:132-139 | an unregistered name is rejected; otherwise exactly that entry leaves the registry and storage is untouched |
| Ocl2Hcl.MapAll | plugins/huaweicloud/src/test/java/org/eclipse/xpanse/orchestrator/plugin/huaweicloud/builders/terraform/Ocl2HclTest.java:170-184 | mapping succeeds exactly when every element does, and keeps their results in order |
| Ocl2Hcl.ParsePort | plugins/huaweicloud/src/test/java/org/eclipse/xpanse/orchestrator/plugin/huaweicloud/builders/terraform/Ocl2HclTest.java:43 | an accepted port is the trimmed entry read as a 32-bit `int`; anything else is a number-format error carrying the trimmed text |
| Ocl2Hcl.ParsePortOfNat | plugins/huaweicloud/src/test/java/org/eclipse/xpanse/orchestrator/plugin/huaweicloud/builders/terraform/Ocl2HclTest.java:43 | the decimal text of every non-negative `int` parses as that port |
| Ocl2Hcl.ParsePortEntry | plugins/huaweicloud/src/test/java/org/eclipse/xpanse/orchestrator/plugin/huaweicloud/builders/terraform/Ocl2HclTest.java:43 | an entry parses to a range of two 32-bit ports, a dash-free entry to a single port, and fails only with a number-format error |
| Ocl2Hcl.PortEntryRoundTrip | plugins/huaweicloud/src/test/java/org/eclipse/xpanse/orchestrator/plugin/huaweicloud/builders/terraform/Ocl2HclTest.java:192-193 | every range of ports, written as `a-b` or as a single port, parses back to itself |
| Ocl2Hcl.DirectionText | plugins/huaweicloud/src/test/java/org/eclipse/xpanse/orchestrator/plugin/huaweicloud/builders/terraform/Ocl2HclTest.java:190 | IN renders as `ingress` and OUT as `egress`, and only those |
| Ocl2Hcl.RuleBlockNamesDistinct | plugins/huaweicloud/src/test/java/org/eclipse/xpanse/orchestrator/plugin/huaweicloud/builders/terraform/Ocl2HclTest.java:170-184 | blocks of different entries of one rule have different names |
| Ocl2Hcl.RuleBlocksFacts | plugins/huaweicloud/src/test/java/org/eclipse/xpanse/orchestrator/plugin/huaweicloud/builders/terraform/Ocl2HclTest.java:170-195 | a rule gives exactly one block per port entry, named `rule_i`, pointing at its group, with the rule's direction, protocol and cidr and the entry's bounds, and fails exactly when an entry is malformed |
| Ocl2Hcl.RuleBlockAt | plugins/huaweicloud/src/test/java/org/eclipse/xpanse/orchestrator/plugin/huaweicloud/builders/terraform/Ocl2HclTest.java:170-195 | the block of entry `i` carries the range that entry parses to |
| Ocl2Hcl.ParseRefRoundTrip | plugins/huaweicloud/src/test/java/org/eclipse/xpanse/orchestrator/plugin/huaweicloud/builders/terraform/Ocl2HclTest.java:71 | the path text of every reference parses back to that reference |
| Ocl2Hcl.NotAfter | plugins/huaweicloud/src/test/java/org/eclipse/xpanse/orchestrator/plugin/huaweicloud/builders/terraform/Ocl2HclTest.java:93-98 | a path with one list prefix is not read as a reference into another list |
| Ocl2Hcl.ResolveRef | plugins/huaweicloud/src/test/java/org/eclipse/xpanse/orchestrator/plugin/huaweicloud/builders/terraform/Ocl2HclTest.java:240-241 | resolving a reference finds exactly the designated element's name, and a dangling reference is an error |
| Ocl2Hcl.Resolve | plugins/huaweicloud/src/test/java/org/eclipse/xpanse/orchestrator/plugin/huaweicloud/builders/terraform/Ocl2HclTest.java:240-241 | a path resolves exactly when it is a well-formed reference to an existing element, to that element's name; otherwise it is an illegal-argument error naming the path |
| Ocl2Hcl.ParseOctet | plugins/huaweicloud/src/test/java/org/eclipse/xpanse/orchestrator/plugin/huaweicloud/builders/terraform/Ocl2HclTest.java:239 | an accepted octet is below 256 |
| Ocl2Hcl.ParseIpv4 | plugins/huaweicloud/src/test/java/org/eclipse/xpanse/orchestrator/plugin/huaweicloud/builders/terraform/Ocl2HclTest.java:239 | an accepted dotted quad is a 32-bit address |
| Ocl2Hcl.Octets | plugins/huaweicloud/src/test/java/org/eclipse/xpanse/orchestrator/plugin/huaweicloud/builders/terraform/Ocl2HclTest.java:239 | the four octets of an address recompose to it |
| Ocl2Hcl.Ipv4RoundTrip | plugins/huaweicloud/src/test/java/org/eclipse/xpanse/orchestrator/plugin/huaweicloud/builders/terraform/Ocl2HclTest.java:239 | every 32-bit address rendered as a dotted quad parses back to itself |
| Ocl2Hcl.ParseCidr | plugins/huaweicloud/src/test/java/org/eclipse/xpanse/orchestrator/plugin/huaweicloud/builders/terraform/Ocl2HclTest.java:70 | an accepted block has a 32-bit address and a prefix of at most 32 |
| Ocl2Hcl.CidrRoundTrip | plugins/huaweicloud/src/test/java/org/eclipse/xpanse/orchestrator/plugin/huaweicloud/builders/terraform/Ocl2HclTest.java:70 | every address and prefix rendered in CIDR notation parses back |
| Ocl2Hcl.GatewayInBlock | plugins/huaweicloud/src/test/java/org/eclipse/xpanse/orchestrator/plugin/huaweicloud/builders/terraform/Ocl2HclTest.java:239 | the address lies in its block, and for prefixes up to /31 the gateway lies in the same block, differs from the network address and does not wrap |
| Ocl2Hcl.GatewayOfBlock | plugins/huaweicloud/src/test/java/org/eclipse/xpanse/orchestrator/plugin/huaweicloud/builders/terraform/Ocl2HclTest.java:239 | the gateway of a block is its network address plus one, as a dotted quad |
| Ocl2Hcl.GatewayAddress | plugins/huaweicloud/src/test/java/org/eclipse/xpanse/orchestrator/plugin/huaweicloud/builders/terraform/Ocl2HclTest.java:239 | the network address plus one is still a 32-bit address |
| Ocl2Hcl.GatewayIp | plugins/huaweicloud/src/test/java/org/eclipse/xpanse/orchestrator/plugin/huaweicloud/builders/terraform/Ocl2HclTest.java:239 | a gateway exists exactly for a well-formed CIDR block and is then the network address plus one; a malformed block is an illegal-argument error naming it |
| Ocl2Hcl.FlatMapAll | plugins/huaweicloud/src/test/java/org/eclipse/xpanse/orchestrator/plugin/huaweicloud/builders/terraform/Ocl2HclTest.java:170-184 | the result is the concatenation, in element order, of every element's blocks; it fails exactly when some element does, with the first failing element's error |
| Ocl2Hcl.FlattenMembers | plugins/huaweicloud/src/test/java/org/eclipse/xpanse/orchestrator/plugin/huaweicloud/builders/terraform/Ocl2HclTest.java:161-195 | a block is in the concatenation exactly when it is in one of the parts |
| Ocl2Hcl.NetworkOf | plugins/huaweicloud/src/test/java/org/eclipse/xpanse/orchestrator/plugin/huaweicloud/builders/terraform/Ocl2HclTest.java:149-159 | the network section is found exactly when the descriptor has one |
| Ocl2Hcl.GroupRuleBlocks | plugins/huaweicloud/src/test/java/org/eclipse/xpanse/orchestrator/plugin/huaweicloud/builders/terraform/Ocl2HclTest.java:161-195 | a group's rule blocks are the concatenation, rule by rule in order, of each rule's blocks; they fail exactly when some rule does |
| Ocl2Hcl.SecurityGroupRuleBlocks | plugins/huaweicloud/src/test/java/org/eclipse/xpanse/orchestrator/plugin/huaweicloud/builders/terraform/Ocl2HclTest.java:161-195 | the rule section is the concatenation, group by group in order, of each group's rule blocks; it fails exactly when the network is missing or some group fails |
| Ocl2Hcl.SecurityGroupRuleBlocksComplete | plugins/huaweicloud/src/test/java/org/eclipse/xpanse/orchestrator/plugin/huaweicloud/builders/terraform/Ocl2HclTest.java:161-195 | every block of every rule of every group is emitted |
| Ocl2Hcl.SecurityGroupRuleBlocksSound | plugins/huaweicloud/src/test/java/org/eclipse/xpanse/orchestrator/plugin/huaweicloud/builders/terraform/Ocl2HclTest.java:161-195 | every emitted block is a block of some rule of some group |
| Ocl2Hcl.SecurityGroupBlocks | plugins/huaweicloud/src/test/java/org/eclipse/xpanse/orchestrator/plugin/huaweicloud/builders/terraform/Ocl2HclTest.java:197-205 | one block per security group, named after it, or the error without a network |
| Ocl2Hcl.VpcBlocks | plugins/huaweicloud/src/test/java/org/eclipse/xpanse/orchestrator/plugin/huaweicloud/builders/terraform/Ocl2HclTest.java:215-220 | one block per VPC with its name and cidr, or the error without a network |
| Ocl2Hcl.SubnetBlockOf | plugins/huaweicloud/src/test/java/org/eclipse/xpanse/orchestrator/plugin/huaweicloud/builders/terraform/Ocl2HclTest.java:233-241 | a subnet block has the subnet's name and cidr, the gateway of that cidr and the id of the VPC its path resolves to; it fails exactly when the gateway or the path fails |
| Ocl2Hcl.SubnetBlocks | plugins/huaweicloud/src/test/java/org/eclipse/xpanse/orchestrator/plugin/huaweicloud/builders/terraform/Ocl2HclTest.java:223-241 | one subnet block per subnet, in order; the section fails exactly when the network is missing or some subnet fails |
| Ocl2Hcl.Ids | plugins/huaweicloud/src/test/java/org/eclipse/xpanse/orchestrator/plugin/huaweicloud/builders/terraform/Ocl2HclTest.java:306-320 | one id per path, in order, each the id of the element the path resolves to; fails exactly when some path does not resolve |
| Ocl2Hcl.VmBlockOf | plugins/huaweicloud/src/test/java/org/eclipse/xpanse/orchestrator/plugin/huaweicloud/builders/terraform/Ocl2HclTest.java:306-320 | a VM block has the VM's name, type and image and the ids its subnet, security-group and storage paths resolve to; it fails exactly when a path fails |
| Ocl2Hcl.VmBlocks | plugins/huaweicloud/src/test/java/org/eclipse/xpanse/orchestrator/plugin/huaweicloud/builders/terraform/Ocl2HclTest.java:295-321 | one VM block per VM, in order; the section fails exactly when compute is missing or some VM fails |
| Ocl2Hcl.StorageBlocks | plugins/huaweicloud/src/test/java/org/eclipse/xpanse/orchestrator/plugin/huaweicloud/builders/terraform/Ocl2HclTest.java:286-292 | one volume per storage with its name, type and size, or the error without storages |
| Ocl2Hcl.HclOf | plugins/huaweicloud/src/test/java/org/eclipse/xpanse/orchestrator/plugin/huaweicloud/builders/terraform/Ocl2HclTest.java:149-151 | the document translates exactly when all six sections do, and is then made of those sections in order; this needs network, compute and storage all present |
| Ocl2Hcl.EmptyDescriptorFails | plugins/huaweicloud/src/test/java/org/eclipse/xpanse/orchestrator/plugin/huaweicloud/builders/terraform/Ocl2HclTest.java:149-159 | on a descriptor without sections, the document and every section getter fail with an illegal-argument error |
| Ocl2HclFixture.ThreeEntries | plugins/huaweicloud/src/test/java/org/eclipse/xpanse/orchestrator/plugin/huaweicloud/builders/terraform/Ocl2HclTest.java:43 | a list of three comma-free entries splits back into them |
| Ocl2HclFixture.FixturePortEntries | plugins/huaweicloud/src/test/java/org/eclipse/xpanse/orchestrator/plugin/huaweicloud/builders/terraform/Ocl2HclTest.java:43 | the test's port list splits into three entries, blanks kept |
| Ocl2HclFixture.EntryOfText | plugins/huaweicloud/src/test/java/org/eclipse/xpanse/orchestrator/plugin/huaweicloud/builders/terraform/Ocl2HclTest.java:43 | a range's text, with or without a leading blank, parses to that range |
| Ocl2HclFixture.FixturePortRanges | plugins/huaweicloud/src/test/java/org/eclipse/xpanse/orchestrator/plugin/huaweicloud/builders/terraform/Ocl2HclTest.java:43 | the test's entries read as 8080, 9092-9093 and 2181 |
| Ocl2HclFixture.FixtureRuleNames | plugins/huaweicloud/src/test/java/org/eclipse/xpanse/orchestrator/plugin/huaweicloud/builders/terraform/Ocl2HclTest.java:170-184 | the test's rule gives three blocks named `secRuleTest_0` to `secRuleTest_2` |
| Ocl2HclFixture.FixtureRulePorts | plugins/huaweicloud/src/test/java/org/eclipse/xpanse/orchestrator/plugin/huaweicloud/builders/terraform/Ocl2HclTest.java:192-193 | the second block spans ports 9092 to 9093 |
| Ocl2HclFixture.FixtureRuleFields | plugins/huaweicloud/src/test/java/org/eclipse/xpanse/orchestrator/plugin/huaweicloud/builders/terraform/Ocl2HclTest.java:186-195 | every block of the test's rule points at `securityTest` and carries `ingress`, `tcp` and `10.10.2.0/24` |
| Ocl2HclFixture.SingleRuleSection | plugins/huaweicloud/src/test/java/org/eclipse/xpanse/orchestrator/plugin/huaweicloud/builders/terraform/Ocl2HclTest.java:161-169 | with one group holding one rule, the rule section is that rule's blocks |
| Ocl2HclFixture.BlockAddress | plugins/huaweicloud/src/test/java/org/eclipse/xpanse/orchestrator/plugin/huaweicloud/builders/terraform/Ocl2HclTest.java:239 | the network address of `10.10.0.0/24` plus one is `10.10.0.1` as a number |
| Ocl2HclFixture.RenderAddresses | plugins/huaweicloud/src/test/java/org/eclipse/xpanse/orchestrator/plugin/huaweicloud/builders/terraform/Ocl2HclTest.java:239 | those addresses render as `10.10.0.0` and `10.10.0.1` |
| Ocl2HclFixture.FixtureGateway | plugins/huaweicloud/src/test/java/org/eclipse/xpanse/orchestrator/plugin/huaweicloud/builders/terraform/Ocl2HclTest.java:239 | the subnet `10.10.0.0/24` gets the gateway `10.10.0.1` |
| Ocl2HclFixture.FixtureRefs | plugins/huaweicloud/src/test/java/org/eclipse/xpanse/orchestrator/plugin/huaweicloud/builders/terraform/Ocl2HclTest.java:71-103 | the test's four paths resolve to element 0 of their lists |
| Ocl2HclFixture.FixtureSubnetBlock | plugins/huaweicloud/src/test/java/org/eclipse/xpanse/orchestrator/plugin/huaweicloud/builders/terraform/Ocl2HclTest.java:233-241 | the test's subnet block has gateway `10.10.0.1` and the id of VPC element 0 |
| Ocl2HclFixture.IdsOfOne | plugins/huaweicloud/src/test/java/org/eclipse/xpanse/orchestrator/plugin/huaweicloud/builders/terraform/Ocl2HclTest.java:312-320 | a one-path list resolves to the one id |
| Ocl2HclFixture.FixtureVmBlock | plugins/huaweicloud/src/test/java/org/eclipse/xpanse/orchestrator/plugin/huaweicloud/builders/terraform/Ocl2HclTest.java:306-320 | the test's VM block carries the ids of subnet, security group and storage element 0 |
| Ocl2HclFixture.SubnetSection | plugins/huaweicloud/src/test/java/org/eclipse/xpanse/orchestrator/plugin/huaweicloud/builders/terraform/Ocl2HclTest.java:233-241 | the subnet section of the test's shape is the one expected block |
| Ocl2HclFixture.VmSection | plugins/huaweicloud/src/test/java/org/eclipse/xpanse/orchestrator/plugin/huaweicloud/builders/terraform/Ocl2HclTest.java:306-320 | the VM section of the test's shape is the one expected block |
| Ocl2HclFixture.OtherSections | plugins/huaweicloud/src/test/java/org/eclipse/xpanse/orchestrator/plugin/huaweicloud/builders/terraform/Ocl2HclTest.java:197-220 | the group, VPC and storage sections of the test's shape |
| Ocl2HclFixture.FixtureDocument | plugins/huaweicloud/src/test/java/org/eclipse/xpanse/orchestrator/plugin/huaweicloud/builders/terraform/Ocl2HclTest.java:161-321 | any descriptor of the test's shape translates, section by section, to the blocks the test looks for |
| Ocl2HclFixture.FixtureTranslates | plugins/huaweicloud/src/test/java/org/eclipse/xpanse/orchestrator/plugin/huaweicloud/builders/terraform/Ocl2HclTest.java:37-146 | the test's own descriptor translates to those blocks |
| OpenApi.ApplyPiece | modules/orchestrator/src/main/java/org/eclipse/xpanse/orchestrator/utils/OpenApiUtil.java:59-69 | one pass fails with the index error exactly when the piece's key contains the needle and it has no `=` |
| OpenApi.PiecesFailIffBroken | modules/orchestrator/src/main/java/org/eclipse/xpanse/orchestrator/utils/OpenApiUtil.java:59-63 | the validator loop fails exactly when some piece is broken, and then with the index error |
| OpenApi.PiecesKeepOtherKeys | modules/orchestrator/src/main/java/org/eclipse/xpanse/orchestrator/utils/OpenApiUtil.java:57-71 | entries whose key neither contains the needle nor is `isValidator` are untouched |
| OpenApi.FlagStep | modules/orchestrator/src/main/java/org/eclipse/xpanse/orchestrator/utils/OpenApiUtil.java:65 | one pass sets `isValidator` exactly when the flag is on and the piece is stored |
| OpenApi.PiecesSetFlagIff | modules/orchestrator/src/main/java/org/eclipse/xpanse/orchestrator/utils/OpenApiUtil.java:57-71 | `isValidator` is set exactly when the flag is on and some piece is stored |
| OpenApi.PiecesFlagValue | modules/orchestrator/src/main/java/org/eclipse/xpanse/orchestrator/utils/OpenApiUtil.java:65 | the loop only writes `"true"` under `isValidator` |
| OpenApi.PieceStep | modules/orchestrator/src/main/java/org/eclipse/xpanse/orchestrator/utils/OpenApiUtil.java:60-64 | one pass writes a stored piece's canonical value under its key and leaves other keys alone |
| OpenApi.PiecesStoreLastValue | modules/orchestrator/src/main/java/org/eclipse/xpanse/orchestrator/utils/OpenApiUtil.java:59-69 | a written key holds the value of the last stored piece with that key |
| OpenApi.PiecesAddCanonicalInts | modules/orchestrator/src/main/java/org/eclipse/xpanse/orchestrator/utils/OpenApiUtil.java:63-64 | every added entry is the canonical decimal text of a Java `int`, under a key containing the needle |
| OpenApi.ParseValidator | modules/orchestrator/src/main/java/org/eclipse/xpanse/orchestrator/utils/OpenApiUtil.java:58-70 | the loop over the `|` pieces computes exactly the passes `ApplyPieces` defines, stopping at the first broken piece |
| OpenApi.PiecesFailFrom | modules/orchestrator/src/main/java/org/eclipse/xpanse/orchestrator/utils/OpenApiUtil.java:59-63 | a failure on a prefix of the pieces is the failure of the whole loop |
| OpenApi.BaseKeysFree | modules/orchestrator/src/main/java/org/eclipse/xpanse/orchestrator/utils/OpenApiUtil.java:54-56 | no base key and not `isValidator` contains `Length` or `mum` |
| OpenApi.BaseEntriesKept | modules/orchestrator/src/main/java/org/eclipse/xpanse/orchestrator/utils/OpenApiUtil.java:53-92 | every property map carries the type text, description and example, with a validator or without |
| OpenApi.ValidatorFlagIff | modules/orchestrator/src/main/java/org/eclipse/xpanse/orchestrator/utils/OpenApiUtil.java:57-85 | `isValidator` is present exactly for a STRING variable with a stored `*Length*` piece, never for NUMBER, and is `"true"` |
| OpenApi.PropertiesFailIff | modules/orchestrator/src/main/java/org/eclipse/xpanse/orchestrator/utils/OpenApiUtil.java:57-85 | a property map fails exactly when a STRING or NUMBER validator has a needle key without `=`, with the index error |
| OpenApi.RequiredIffMandatory | modules/orchestrator/src/main/java/org/eclipse/xpanse/orchestrator/utils/OpenApiUtil.java:49-51 | a name is required if and only if some variable of that name is mandatory |
| OpenApi.PropertyNames | modules/orchestrator/src/main/java/org/eclipse/xpanse/orchestrator/utils/OpenApiUtil.java:86-91 | the properties are keyed by exactly the variables' names |
| OpenApi.LastVariableWins | modules/orchestrator/src/main/java/org/eclipse/xpanse/orchestrator/utils/OpenApiUtil.java:86-91 | the property map under a name is the one of the last variable with that name |
| OpenApi.SchemaErrorIsIndex | modules/orchestrator/src/main/java/org/eclipse/xpanse/orchestrator/utils/OpenApiUtil.java:46-93 | the variable loop can only fail with the index error |
| OpenApi.SchemaFailsOnBroken | modules/orchestrator/src/main/java/org/eclipse/xpanse/orchestrator/utils/OpenApiUtil.java:46-93 | one broken validator aborts the whole schema |
| OpenApi.VariableProps | modules/orchestrator/src/main/java/org/eclipse/xpanse/orchestrator/utils/OpenApiUtil.java:52-92 | the loop body builds exactly the property map `PropertiesOf` defines for the variable, or the index error |
| OpenApi.BuildSchema | modules/orchestrator/src/main/java/org/eclipse/xpanse/orchestrator/utils/OpenApiUtil.java:46-93 | the in-place loop over the variables computes the required set and property maps `SchemaOf` defines |
| OpenApi.FieldLines | modules/orchestrator/src/main/java/org/eclipse/xpanse/orchestrator/utils/OpenApiUtil.java:98-106 | one rendered line per field, in order: line `i` is field `i`'s label and value |
| OpenApi.RenderProperties | modules/orchestrator/src/main/java/org/eclipse/xpanse/orchestrator/utils/OpenApiUtil.java:94-124 | the loop over the property maps, in the map's iteration order, renders each property's lines in turn |
| OpenApi.PropertyLinesByBlock | modules/orchestrator/src/main/java/org/eclipse/xpanse/orchestrator/utils/OpenApiUtil.java:95-123 | a property renders its name line, the three base fields, then each conditional pair of fields |
| OpenApi.AppendProperty | modules/orchestrator/src/main/java/org/eclipse/xpanse/orchestrator/utils/OpenApiUtil.java:95-123 | the loop body appends exactly one property's lines |
| OpenApi.FieldLabels | modules/orchestrator/src/main/java/org/eclipse/xpanse/orchestrator/utils/OpenApiUtil.java:107-123 | the base labels always appear; the length pair exactly for a validated string; the numeric pair exactly for a number |
| OpenApi.RenderedFieldsOfVariable | modules/orchestrator/src/main/java/org/eclipse/xpanse/orchestrator/utils/OpenApiUtil.java:107-123 | a variable renders length bounds exactly when it is a STRING with a stored `*Length*` piece, and numeric bounds exactly when its type is `number` |
| OpenApi.RequiredLineInjective | modules/orchestrator/src/main/java/org/eclipse/xpanse/orchestrator/utils/OpenApiUtil.java:128 | different names render different required lines |
| OpenApi.RequiredLines | modules/orchestrator/src/main/java/org/eclipse/xpanse/orchestrator/utils/OpenApiUtil.java:126-129 | one required line per visited name |
| OpenApi.RenderRequired | modules/orchestrator/src/main/java/org/eclipse/xpanse/orchestrator/utils/OpenApiUtil.java:126-129 | the loop over the required set renders exactly the lines `RequiredLines` defines |
| OpenApi.RequiredLineCount | modules/orchestrator/src/main/java/org/eclipse/xpanse/orchestrator/utils/OpenApiUtil.java:126-129 | each name's line occurs as often as the name is visited |
| OpenApi.RequiredLinesOnePerName | modules/orchestrator/src/main/java/org/eclipse/xpanse/orchestrator/utils/OpenApiUtil.java:126-129 | in any iteration order of the set, each required name gets exactly one line and other names none |

## Left out

- I/O, the Spring `Environment`, logging and concurrency are not modelled. The registry is a plain `HashMap` used from one thread.
- The Terraform executor's workspace, script writing and external processes are not modelled. Each step's exit status is a field of an `Engine` parameter.
- HuaweiResource.Create: the record update after a successful apply is the abstract `update` function of the engine, because `OclTerraformExecutor.updateOclResources` is not part of this model.
- The env and image builders (`HuaweiEnvBuilder`, `HuaweiImageBuilder`) are not part of this model beyond their names and their places in builder trees.
- Jackson serialisation is modelled as an abstract `encode`/`decode` pair that round-trips. Text that does not parse reads as the default record, as the `JsonProcessingException` handler at HuaweiCloudOrchestratorPlugin.java:179-181 does. A serialisation failure on write cannot happen in the model.
- Plugin.ReadRecord: a missing key is assumed to read as the default record. `OrchestratorStorage.getKey` is not part of this model, and if it returned null, `readValue` would throw an exception that the handler does not catch.
- `Ocl.deepCopy` is a value copy, so the null check after it at HuaweiCloudOrchestratorPlugin.java:78-81 cannot fire. The builders hold descriptor values, so the registry entry cannot be mutated through them.
- The plugin's private `createBuilder` (HuaweiCloudOrchestratorPlugin.java:141-149) is never called and is left out.
- `Ocl2Hcl.java` is not part of this model. The translator is modelled from its unit test as the structure of the blocks, not as HCL text. Its availability-zone, flavor and image getters are left out, because the test only checks that they do not throw.
- Ocl2Hcl.ParsePortEntry: an entry with a dash is split at its first dash, and a single port is the range from the port to itself. How `Ocl2Hcl.java` treats reversed ranges or out-of-range ports is not known; the model accepts any two 32-bit values.
- OpenApi.RenderProperties: `HashMap` iteration order is not defined by Java, so the order is a parameter. The ordered lines are proved equal to `PropertiesText`, and the order-independent facts are stated per property.
- OpenApi.RenderRequired: `HashSet` iteration order is not defined by Java, so the order is a parameter. The line counts are proved for any order that visits each element once.
- The file and process side effects of `OpenApiUtil`, the OpenAPI template text and `deleteServiceApi` are left out.
- `e.printStackTrace()` after a `NumberFormatException` is a side effect only; the model skips the piece.
- Text.ParseInt: only ASCII digits are accepted. Java's `Integer.parseInt` also accepts other Unicode decimal digits.
- Text.IsWhitespace: covers the ASCII whitespace `Character.isWhitespace` accepts, not the Unicode space separators.
- Composite.KindName: the image builder's name is not known to the model.
- `IPTool`, the generated UI data types and the UI views have no modelled behaviour.
- `BuilderFactoryTest` contributes only the env builder's name. Its other expectations contradict the factory.
- The order of the steps in `build` and `rollback`, a child's `false` not stopping `build`, a thrown `BuilderException` leaving `build` at once, and `rollback` going on past a throwing destroy step are all assumptions of the model. `AtomBuilder.java` is not part of this model, and `AtomBuilderTest` checks only call counts.
- Plugin.HuaweiCloudPlugin.Stop: a destroy step that throws is taken to be recorded by `rollback` as a failure. So Stop always completes. If `rollback` let the exception out, Stop would end with it instead.
- Context.BuilderContext.Equals: the generated `equals` also compares the `environment` and `storage` fields (BuilderContext.java:24, 34), which are not modelled.
- A null `artifacts` list on the image (HuaweiResourceBuilder.java:49), a null base-image list, or a base image whose `filters` is null (HuaweiResourceBuilder.java:50-52), throws `NullPointerException` in the source. The model's lists and filters are never null.
- A null `mandatory` flag or a null variable type (OpenApiUtil.java:49, 54) throws `NullPointerException` in the source. The model's flags and types are never null.
- A null builder type passed to `createBuilder` (BuilderFactory.java:35) throws `NullPointerException` in the source. The model's type string is never null.
