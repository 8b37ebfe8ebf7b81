/** The Huawei resource builder: checks that the env builder has published its outputs,
    fills in image artifact ids from the base images, and drives the Terraform executor
    through init, plan and apply (or destroy). */
module HuaweiResource {
  import opened Common
  import opened Text
  import opened Descriptor
  import opened Composite
  import opened Context

  datatype Step = Init | Plan | Apply | Destroy

  /** The answers the provisioning engine gives each executor step, and the record
      update the executor makes after a successful apply. */
  datatype Engine = Engine(
    initOk: bool, planOk: bool, applyOk: bool, destroyOk: bool,
    update: OclResources -> OclResources)

  predicate Succeeds(e: Engine, s: Step)
  {
    match s
    case Init => e.initOk
    case Plan => e.planOk
    case Apply => e.applyOk
    case Destroy => e.destroyOk
  }

  /** The executor made for one create or destroy call: it holds the descriptor and the
      env outputs it was made with, and logs the steps it ran. */
  class TerraformExecutor {
    const ocl: Ocl
    const envOutputs: Option<map<string, string>>
    const engine: Engine
    var ran: seq<Step>

    constructor (ocl: Ocl, envOutputs: Option<map<string, string>>, engine: Engine)
      ensures this.ocl == ocl && this.envOutputs == envOutputs && this.engine == engine
      ensures ran == []
    {
      this.ocl := ocl;
      this.envOutputs := envOutputs;
      this.engine := engine;
      ran := [];
    }

    /** Runs one step and reports its exit status. */
    method Run(s: Step) returns (ok: bool)
      modifies this
      ensures ok == Succeeds(engine, s)
      ensures ran == old(ran) + [s]
    {
      ran := ran + [s];
      ok := Succeeds(engine, s);
    }
  }

  const ResourceName := ResourceBuilderName

  /** The id of the first base image whose filter id is not blank. */
  function FirstUsableId(base: seq<BaseImage>): (r: Option<string>)
    ensures r.Some? ==> !IsBlank(r)
  {
    if base == [] then None
    else if !IsBlank(base[0].filterId) then base[0].filterId
    else FirstUsableId(base[1..])
  }

  /** `FirstUsableId` is the id of base image `j` when every earlier base image has a
      blank id and `j` does not, and there is none when all are blank. */
  lemma {:induction false} FirstUsableIdAt(base: seq<BaseImage>, j: nat)
    requires j <= |base|
    requires forall k :: 0 <= k < j ==> IsBlank(base[k].filterId)
    ensures j < |base| && !IsBlank(base[j].filterId) ==> FirstUsableId(base) == base[j].filterId
    ensures j == |base| ==> FirstUsableId(base).None?
  {
    if j > 0 {
      assert IsBlank(base[0].filterId);
      FirstUsableIdAt(base[1..], j - 1);
    }
  }

  /** One artifact after the id loop: it takes the first usable base id if there is one
      and is left as it was otherwise. */
  function Stamp(a: Artifact, base: seq<BaseImage>): Artifact
  {
    match FirstUsableId(base)
    case None => a
    case Some(id) => a.(id := Some(id))
  }

  /** Stamping keeps every artifact's name, gives every artifact the same id when a base
      image has a usable id, leaves the artifact alone when none has, and a second pass
      changes nothing. */
  lemma StampProperties(a: Artifact, b: Artifact, base: seq<BaseImage>)
    ensures Stamp(a, base).name == a.name
    ensures FirstUsableId(base).Some? ==> Stamp(a, base).id == Stamp(b, base).id == FirstUsableId(base)
    ensures (forall k :: 0 <= k < |base| ==> IsBlank(base[k].filterId)) ==> Stamp(a, base) == a
    ensures Stamp(Stamp(a, base), base) == Stamp(a, base)
  {
    if forall k :: 0 <= k < |base| ==> IsBlank(base[k].filterId) {
      FirstUsableIdAt(base, |base|);
    }
  }

  /** The artifact-id loop: for every artifact, the first base image with a non-blank
      filter id gives the artifact its id, and the inner loop stops there. */
  method StampArtifacts(artifacts: array<Artifact>, base: seq<BaseImage>)
    modifies artifacts
    ensures forall i :: 0 <= i < artifacts.Length ==> artifacts[i] == Stamp(old(artifacts[i]), base)
  {
    var i := 0;
    while i < artifacts.Length
      invariant 0 <= i <= artifacts.Length
      invariant forall k :: 0 <= k < i ==> artifacts[k] == Stamp(old(artifacts[k]), base)
      invariant forall k :: i <= k < artifacts.Length ==> artifacts[k] == old(artifacts[k])
    {
      var j := 0;
      while j < |base|
        invariant 0 <= j <= |base|
        invariant forall k :: 0 <= k < j ==> IsBlank(base[k].filterId)
        invariant artifacts[i] == old(artifacts[i])
        invariant forall k :: 0 <= k < i ==> artifacts[k] == Stamp(old(artifacts[k]), base)
        invariant forall k :: i < k < artifacts.Length ==> artifacts[k] == old(artifacts[k])
      {
        var id := base[j].filterId;
        if !IsBlank(id) {
          FirstUsableIdAt(base, j);
          artifacts[i] := artifacts[i].(id := id);
          break;
        }
        j := j + 1;
      }
      if j == |base| {
        FirstUsableIdAt(base, j);
      }
      i := i + 1;
    }
  }

  /** The descriptor once every artifact has been stamped. */
  function StampedImage(img: Image): (r: Image)
    ensures |r.artifacts| == |img.artifacts| && r.base == img.base
    ensures forall i :: 0 <= i < |img.artifacts| ==> r.artifacts[i] == Stamp(img.artifacts[i], img.base)
  {
    img.(artifacts := seq(|img.artifacts|, i requires 0 <= i < |img.artifacts| => Stamp(img.artifacts[i], img.base)))
  }

  /** The steps `create` runs: init, plan and apply in order, up to the first failing
      one. */
  function CreateSteps(e: Engine): seq<Step>
  {
    if !e.initOk then [Init] else if !e.planOk then [Init, Plan] else [Init, Plan, Apply]
  }

  /** The result of `create` once the dependency checks have passed: a builder failure
      naming the first failing step, or `true`. */
  function CreateOutcome(e: Engine): Result<bool>
  {
    if !e.initOk then Err(BuilderFailure(ResourceName, "TFExecutor.tfInit failed." + ResourceName))
    else if !e.planOk then Err(BuilderFailure(ResourceName, "TFExecutor.tfPlan failed." + ResourceName))
    else if !e.applyOk then Err(BuilderFailure(ResourceName, "TFExecutor.tfApply failed." + ResourceName))
    else Ok(true)
  }

  /** `create` runs a prefix of init, plan, apply in which every step but the last
      succeeded; no step runs after a failing one; and it succeeds, always with `true`,
      exactly when all three steps succeed. */
  lemma CreateStopsAtFirstFailure(e: Engine)
    ensures var s := CreateSteps(e);
      && 1 <= |s| <= 3 && s == [Init, Plan, Apply][..|s|]
      && (forall i :: 0 <= i < |s| - 1 ==> Succeeds(e, s[i]))
      && (|s| < 3 ==> !Succeeds(e, s[|s| - 1]))
    ensures CreateOutcome(e).Ok? <==> forall s :: s in [Init, Plan, Apply] ==> Succeeds(e, s)
    ensures CreateOutcome(e).Ok? ==> CreateOutcome(e).value
  {
    var s := CreateSteps(e);
    if !e.initOk {
      assert [Init, Plan, Apply][..1] == [Init];
    } else if !e.planOk {
      assert [Init, Plan, Apply][..2] == [Init, Plan];
    } else {
      assert [Init, Plan, Apply][..3] == [Init, Plan, Apply];
    }
    if CreateOutcome(e).Ok? {
      forall s | s in [Init, Plan, Apply] ensures Succeeds(e, s) {
      }
    } else {
      assert !Succeeds(e, Init) || !Succeeds(e, Plan) || !Succeeds(e, Apply);
    }
  }

  /** `create(ctx)`. A null context, or a context without the env builder's outputs, is a
      builder failure before anything else happens; a descriptor without an image section
      fails on the artifact loop. Otherwise the artifacts are stamped, an executor is made
      for the stamped descriptor and the env outputs, the steps run up to the first
      failure, and only a full success updates the context's record. */
  method Create(ctx: BuilderContext?, ocl: Ocl, engine: Engine)
      returns (r: Result<bool>, stamped: Ocl, exec: TerraformExecutor?)
    modifies ctx
    ensures ctx == null ==> r == Err(BuilderFailure(ResourceName, "Builder context is null."))
    ensures ctx != null && ctx.Get(EnvBuilderName).None? ==>
      r == Err(BuilderFailure(ResourceName, "HuaweiEnvBuilder context is null."))
    ensures ctx != null && ctx.Get(EnvBuilderName).Some? && ocl.image.None? ==> r == Err(NullReference)
    ensures exec != null <==> ctx != null && ctx.Get(EnvBuilderName).Some? && ocl.image.Some?
    ensures exec == null ==> stamped == ocl
    ensures exec != null ==>
      && stamped == ocl.(image := Some(StampedImage(ocl.image.value)))
      && exec.ocl == stamped && exec.envOutputs == ctx.Get(EnvBuilderName)
      && exec.ran == CreateSteps(engine)
      && r == CreateOutcome(engine)
    ensures ctx != null ==> ctx.oclResources == if r.Ok? then engine.update(old(ctx.oclResources)) else old(ctx.oclResources)
    ensures ctx != null ==> ctx.outputs == old(ctx.outputs) && ctx.builderMap == old(ctx.builderMap)
    ensures ctx != null ==> ctx.serviceName == old(ctx.serviceName) && ctx.pluginName == old(ctx.pluginName)
  {
    stamped, exec := ocl, null;
    if ctx == null {
      return Err(BuilderFailure(ResourceName, "Builder context is null.")), stamped, exec;
    }
    var envCtx := ctx.Get(EnvBuilderName);
    if envCtx.None? {
      return Err(BuilderFailure(ResourceName, "HuaweiEnvBuilder context is null.")), stamped, exec;
    }
    if ocl.image.None? {
      return Err(NullReference), stamped, exec;
    }
    var img := ocl.image.value;
    var artifacts := new Artifact[|img.artifacts|](i requires 0 <= i < |img.artifacts| => img.artifacts[i]);
    StampArtifacts(artifacts, img.base);
    assert artifacts[..] == StampedImage(img).artifacts;
    stamped := ocl.(image := Some(img.(artifacts := artifacts[..])));

    exec := new TerraformExecutor(stamped, envCtx, engine);
    var ok := exec.Run(Init);
    if !ok {
      return Err(BuilderFailure(ResourceName, "TFExecutor.tfInit failed." + ResourceName)), stamped, exec;
    }
    ok := exec.Run(Plan);
    if !ok {
      return Err(BuilderFailure(ResourceName, "TFExecutor.tfPlan failed." + ResourceName)), stamped, exec;
    }
    ok := exec.Run(Apply);
    if !ok {
      return Err(BuilderFailure(ResourceName, "TFExecutor.tfApply failed." + ResourceName)), stamped, exec;
    }
    ctx.SetOclResources(engine.update(ctx.oclResources));
    r := Ok(true);
  }

  /** The steps `destroy` runs: init, plan and destroy in order, up to the first failing
      one. */
  function DestroySteps(e: Engine): seq<Step>
  {
    if !e.initOk then [Init] else if !e.planOk then [Init, Plan] else [Init, Plan, Destroy]
  }

  /** The result of `destroy`: init and plan failures are builder failures, a failing
      destroy step is the answer `false`. */
  function DestroyOutcome(e: Engine): Result<bool>
  {
    if !e.initOk then Err(BuilderFailure(ResourceName, "TFExecutor.tfInit failed " + ResourceName))
    else if !e.planOk then Err(BuilderFailure(ResourceName, "TFExecutor.tfPlan failed." + ResourceName))
    else Ok(e.destroyOk)
  }

  /** `destroy` fails exactly when init or plan fails, answers `true` exactly when all
      three steps succeed, answers `false` exactly when only the destroy step fails, and
      runs the destroy step only after init and plan have succeeded. */
  lemma DestroyOutcomes(e: Engine)
    ensures DestroyOutcome(e).Err? <==> !e.initOk || !e.planOk
    ensures DestroyOutcome(e) == Ok(true) <==> e.initOk && e.planOk && e.destroyOk
    ensures DestroyOutcome(e) == Ok(false) <==> e.initOk && e.planOk && !e.destroyOk
    ensures Destroy in DestroySteps(e) <==> e.initOk && e.planOk
    ensures DestroySteps(e) == [Init, Plan, Destroy][..|DestroySteps(e)|]
  {
    if !e.initOk {
      assert [Init, Plan, Destroy][..1] == [Init];
    } else if !e.planOk {
      assert [Init, Plan, Destroy][..2] == [Init, Plan];
    } else {
      assert [Init, Plan, Destroy][..3] == [Init, Plan, Destroy];
    }
  }

  /** `destroy(ctx)`: a null context fails when its env outputs are looked up; otherwise an
      executor is made with whatever the env builder published (possibly nothing) and the
      steps run as `DestroySteps` says. The context is not changed. */
  method DestroyResources(ctx: BuilderContext?, ocl: Ocl, engine: Engine)
      returns (r: Result<bool>, exec: TerraformExecutor?)
    ensures ctx == null ==> r == Err(NullReference) && exec == null
    ensures ctx != null ==> exec != null && exec.ocl == ocl && exec.envOutputs == ctx.Get(EnvBuilderName)
    ensures ctx != null ==> exec.ran == DestroySteps(engine) && r == DestroyOutcome(engine)
  {
    if ctx == null {
      return Err(NullReference), null;
    }
    exec := new TerraformExecutor(ocl, ctx.Get(EnvBuilderName), engine);
    var ok := exec.Run(Init);
    if !ok {
      return Err(BuilderFailure(ResourceName, "TFExecutor.tfInit failed " + ResourceName)), exec;
    }
    ok := exec.Run(Plan);
    if !ok {
      return Err(BuilderFailure(ResourceName, "TFExecutor.tfPlan failed." + ResourceName)), exec;
    }
    ok := exec.Run(Destroy);
    r := Ok(ok);
  }
}
